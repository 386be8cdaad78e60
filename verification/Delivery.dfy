/** The way of an answer through the driver: which system calls and which moves of the two libraries deliver it. */
module Delivery {
  import opened Options
  import opened DriverModel
  import opened DriverInvariant
  import opened DriverCommands
  import opened DriverSteps
  import opened MirrorDriver
  import opened DriverQueues
  import opened DriverTelling
  import opened DriverChannels
  import opened Routing
  import opened MirrorSteps
  import opened ServerTables
  import opened EndToEnd
  import Seqs
  import DriverFacts
  import DriverOutcomes
  import Framing
  import Exchange
  import ExchangeFate
  import LibServer
  import MirrorRuns

  /** The driver, the libraries' tables and one connection's exchange at one moment. */
  datatype Joint = Joint(s: State, lib: Tables, x: Exchange.Link)

  ghost predicate Sound(j: Joint, k: Ref, urls: Table<nat>, respond: Exchange.Respond) {
    Reachable(j.s) && k in j.s.conns && Agrees(j.s, j.lib, j.x, k) && Exchange.Good(j.x, urls, respond)
  }

  function Then(j: Joint, e: Event, urls: Table<nat>, respond: Exchange.Respond): Joint
    requires e.cmd.Some? ==> CmdOk(j.s, e.cmd.value)
  {
    Joint(NextState(j.s, e), NextTables(j.s, e, j.lib), NextLink(j.x, e, urls, respond))
  }

  /** The callback of the pending call, run on its answer. */
  function Outcome(x: Exchange.Link, urls: Table<nat>, respond: Exchange.Respond): (nat, Framing.Fetch)
    requires x.calls != [] && Exchange.Answer(Exchange.Last(x), urls, respond).Some?
  {
    (Exchange.Last(x).callback, Framing.Got(Exchange.Answer(Exchange.Last(x), urls, respond).value))
  }

  /** A proper event in the connection's life whose system call, if there is one, does not fail. */
  ghost predicate Runs(j: Joint, e: Event, k: Ref, urls: Table<nat>) {
    && (e.cmd.Some? ==> CmdOk(j.s, e.cmd.value) && Step(j.s, e.cmd.value).1 >= 0)
    && Proper(j.s, j.x, e, k, urls) && k in NextState(j.s, e).conns
    && (e.move.Some? ==> !e.move.value.CallServer?)
  }

  ghost predicate Goes(j: Joint, events: seq<Event>, j': Joint, k: Ref, urls: Table<nat>, respond: Exchange.Respond)
    decreases |events|
  {
    if events == [] then j' == j
    else Runs(j, events[0], k, urls) && Goes(Then(j, events[0], urls, respond), events[1..], j', k, urls, respond)
  }

  lemma {:induction false} GoesOn(j: Joint, events: seq<Event>, j1: Joint, more: seq<Event>, j2: Joint, k: Ref,
                                  urls: Table<nat>, respond: Exchange.Respond)
    requires Goes(j, events, j1, k, urls, respond) && Goes(j1, more, j2, k, urls, respond)
    ensures Goes(j, events + more, j2, k, urls, respond)
    decreases |events|
  {
    hide Then, CmdOk, Step, NextState, Proper;
    if events == [] {
      assert events + more == more;
    } else {
      assert (events + more)[0] == events[0] && (events + more)[1..] == events[1..] + more;
      GoesOn(Then(j, events[0], urls, respond), events[1..], j1, more, j2, k, urls, respond);
    }
  }

  lemma GoesOne(j: Joint, e: Event, k: Ref, urls: Table<nat>, respond: Exchange.Respond)
    requires Runs(j, e, k, urls)
    ensures Goes(j, [e], Then(j, e, urls, respond), k, urls, respond)
  {
    hide Then, CmdOk, Step, NextState, Proper;
    assert [e][1..] == [];
    assert Goes(Then(j, e, urls, respond), [], Then(j, e, urls, respond), k, urls, respond);
  }

  lemma ThenSound(j: Joint, e: Event, k: Ref, urls: Table<nat>, respond: Exchange.Respond)
    requires Sound(j, k, urls, respond) && Runs(j, e, k, urls)
    ensures Sound(Then(j, e, urls, respond), k, urls, respond)
  {
    hide Reachable, CmdOk, Step, NextState, NextTables, Agrees, Proper, Exchange.Good, Exchange.Step;
    ExchangeFate.TurnOf(j.x, urls, respond);
    NextReachable(j.s, e);
    EventAgrees(j.s, j.lib, j.x, e, k, urls, respond);
    if e.move.Some? {
      Exchange.StepGood(j.x, e.move.value, urls, respond);
    }
  }

  // ---------- reading ----------

  /** A call is pending, its message or its answer waits in a queue, and nobody is busy. */
  predicate Waiting(x: Exchange.Link) {
    x.sent && Exchange.InFlight(x) == 1 && !x.dead && !x.serverBusy && !x.clientBusy
  }

  function ReadOf(t: Ref): Cmd {
    Read(t, NOTIF_SIZE)
  }

  /** What the reading of task t's next notification means for the exchange. */
  function ReadEvent(j: Joint, t: Ref, k: Ref): (e: Event)
    requires t in j.s.tasks && Whole(j.s, k)
    ensures e.cmd == Some(ReadOf(t))
  {
    var cmd := ReadOf(t);
    Event(Some(cmd),
          if Took(j.s, cmd, k, CLIENT) != [] then Some(Exchange.ServerTake)
          else if Took(j.s, cmd, k, SERVER) != [] then Some(Exchange.ClientTake)
          else if Heard(j.s, cmd, FactOf(j.s, k)) then Some(OtherHeard(j.s, cmd, FactOf(j.s, k)))
          else None)
  }

  /** The next notification that task t will read is one of connection k, sent by this side. */
  predicate Next(s: State, t: Ref, k: Ref, who: Sender) {
    && t in s.tasks && !s.tasks[t].monitor && s.tasks[t].queue != []
    && Whole(s, k) && Took(s, ReadOf(t), k, who) != []
  }

  predicate SameEnds(s: State, s': State, k: Ref) {
    && Whole(s, k) && Whole(s', k) && FactOf(s', k) == FactOf(s, k)
    && Receiver(s', k, CLIENT) == Receiver(s, k, CLIENT) && Receiver(s', k, SERVER) == Receiver(s, k, SERVER)
  }

  lemma ReadStays(s: State, t: Ref)
    requires t in s.tasks && !s.tasks[t].monitor && s.tasks[t].queue != []
    ensures CmdOk(s, ReadOf(t)) && Step(s, ReadOf(t)) == (Pop(s, t), NOTIF_SIZE) && Pop(s, t).conns == s.conns
    ensures t in Pop(s, t).tasks && Pop(s, t).tasks[t].queue == s.tasks[t].queue[1..] && !Pop(s, t).tasks[t].monitor
  {
  }

  lemma ReadSaysNothing(s: State, t: Ref, k: Ref, who: Sender)
    requires t in s.tasks && Whole(s, k)
    ensures Says(s, ReadOf(t), k, who) == []
  {
    hide Whole, FactOf;
  }

  lemma ReadRuns(j: Joint, t: Ref, k: Ref, urls: Table<nat>, respond: Exchange.Respond)
    requires Sound(j, k, urls, respond) && Whole(j.s, k) && !j.x.dead && !j.x.serverBusy && !j.x.clientBusy
    requires t in j.s.tasks && !j.s.tasks[t].monitor && j.s.tasks[t].queue != []
    ensures Runs(j, ReadEvent(j, t, k), k, urls)
    ensures Sound(Then(j, ReadEvent(j, t, k), urls, respond), k, urls, respond)
    ensures Then(j, ReadEvent(j, t, k), urls, respond).s == Pop(j.s, t)
  {
    hide Reachable, CmdOk, Step, LibStep, Whole, FactOf, Took, Says, Heard, Grants, Pop, Agrees, Exchange.Good,
         Exchange.Step, WillAnswer;
    ReadStays(j.s, t);
    ReadSaysNothing(j.s, t, k, CLIENT);
    ReadSaysNothing(j.s, t, k, SERVER);
    ThenSound(j, ReadEvent(j, t, k), k, urls, respond);
  }

  /** Tasks that have clients or servers are not the monitor. */
  lemma EndsRead(s: State, k: Ref, who: Sender)
    requires Inv(s) && Whole(s, k)
    ensures Receiver(s, k, who) in s.tasks && !s.tasks[Receiver(s, k, who)].monitor
  {
    hide Inv, Seqs.Distinct;
    ReceiverLive(s, k, who);
    DriverFacts.TaskCounters(s, Receiver(s, k, who));
  }

  lemma ChannelOf(s: State, lib: Tables, x: Exchange.Link, k: Ref, who: Sender)
    requires Agrees(s, lib, x, k)
    ensures Whole(s, k) && Receiver(s, k, who) in s.tasks
    ensures Channel(s, k, who) == if who == CLIENT then x.toServer else x.toClient
  {
    hide Whole, FactOf, Receiver, Channel, Keeps;
  }

  lemma EmptyQueue(s: State, k: Ref, who: Sender)
    requires Whole(s, k) && Receiver(s, k, who) in s.tasks && s.tasks[Receiver(s, k, who)].queue == []
    ensures Channel(s, k, who) == []
  {
    hide Whole, FactOf, Receiver;
    KindsOfNothing(s, k, who);
  }

  /** What the reading of something else leaves of a waiting exchange. */
  ghost predicate StillWaits(x: Exchange.Link, x': Exchange.Link, who: Sender) {
    && Waiting(x') && x'.calls == x.calls && x'.delivered == x.delivered && x'.ends == x.ends
    && (if who == CLIENT then x'.toServer == x.toServer else x'.toClient == x.toClient)
    && (Exchange.Known(x) ==> Exchange.Known(x'))
  }

  lemma WaitTrans(x: Exchange.Link, x1: Exchange.Link, x2: Exchange.Link, who: Sender)
    requires StillWaits(x, x1, who) && StillWaits(x1, x2, who)
    ensures StillWaits(x, x2, who)
  {
    hide Exchange.Known, Waiting;
  }

  lemma WaitSame(x: Exchange.Link, who: Sender)
    requires Waiting(x)
    ensures StillWaits(x, x, who)
  {
    hide Exchange.Known, Waiting;
  }

  lemma OtherWaits(x: Exchange.Link, n: Notif, granted: bool, who: Sender, urls: Table<nat>, respond: Exchange.Respond)
    requires Exchange.Good(x, urls, respond) && Waiting(x)
    ensures StillWaits(x, Exchange.Step(x, Exchange.ServerOther(n, granted), urls, respond), who)
  {
    hide Exchange.Good, Exchange.OwnTable, Exchange.Listed, Exchange.Foreign, LibServer.Handle;
    ExchangeFate.GoodOwn(x, urls, respond);
    if Exchange.Foreign(x.ends, n) {
      Exchange.OtherOwn(x.ends, x.table, n, granted);
    }
  }

  lemma HelloWaits(x: Exchange.Link, urls: Table<nat>, respond: Exchange.Respond)
    requires Exchange.Good(x, urls, respond) && Waiting(x) && x.toServer != [] && x.toClient != []
    ensures StillWaits(x, Exchange.Step(x, Exchange.ServerTake, urls, respond), SERVER)
  {
    hide Exchange.Good, Exchange.OwnTable, Exchange.Listed, Exchange.Hello, Exchange.MayMap, LibServer.Handle,
         Exchange.RequestFits, Exchange.RespondFits, Exchange.Answer;
    ExchangeFate.GoodOwn(x, urls, respond);
    ExchangeFate.TurnOf(x, urls, respond);
    FirstIsNews(x, urls, respond);
    Exchange.HelloOwn(x.ends, x.table);
  }

  /** While an answer waits for the client, no message waits for the server. */
  lemma FirstIsNews(x: Exchange.Link, urls: Table<nat>, respond: Exchange.Respond)
    requires Exchange.Orderly(x) && Waiting(x) && x.toServer != [] && x.toClient != []
    ensures x.toServer[0] == NEW_CONNECTION
  {
    hide Exchange.RequestFits;
    assert x.toClient[0] == NEW_MESSAGE;
  }

  lemma TookChannel(s: State, t: Ref, k: Ref, who: Sender)
    requires Reachable(s) && k in s.conns && Whole(s, k) && t in s.tasks && !s.tasks[t].monitor
    requires s.tasks[t].queue != []
    requires Took(s, ReadOf(t), k, who) != []
    ensures Receiver(s, k, who) in s.tasks && Channel(s, k, who) != []
  {
    hide Reachable, Whole, Receiver, Took, Says, Channel, Pop;
    ReadStays(s, t);
    ReadSaysNothing(s, t, k, who);
    OneAtATime(s, ReadOf(t), k);
    ChannelMoves(s, ReadOf(t), k, who);
  }

  /** Reading a notification that is not the one waited for. */
  lemma ReadPast(j: Joint, t: Ref, k: Ref, who: Sender, urls: Table<nat>, respond: Exchange.Respond)
    requires Sound(j, k, urls, respond) && Waiting(j.x) && Whole(j.s, k)
    requires t in j.s.tasks && !j.s.tasks[t].monitor && j.s.tasks[t].queue != []
    requires if who == CLIENT then j.x.toClient == [] else j.x.toClient != []
    requires Took(j.s, ReadOf(t), k, who) == []
    ensures StillWaits(j.x, Then(j, ReadEvent(j, t, k), urls, respond).x, who)
  {
    hide Reachable, CmdOk, Step, LibStep, NextState, NextTables, Whole, FactOf, Took, Heard, Agrees, Exchange.Good,
         Exchange.Step, Waiting, StillWaits, Channel, Receiver, Pop;
    ReadStays(j.s, t);
    WaitSame(j.x, who);
    ChannelOf(j.s, j.lib, j.x, k, CLIENT);
    ChannelOf(j.s, j.lib, j.x, k, SERVER);
    if Took(j.s, ReadOf(t), k, CLIENT) != [] {
      TookChannel(j.s, t, k, CLIENT);
      HelloWaits(j.x, urls, respond);
    } else if Took(j.s, ReadOf(t), k, SERVER) != [] {
      TookChannel(j.s, t, k, SERVER);
    } else if Heard(j.s, ReadOf(t), FactOf(j.s, k)) {
      var n := j.s.tasks[t].queue[0];
      OtherWaits(j.x, n, Grants(j.s, FactOf(j.s, k).server, n.subId), who, urls, respond);
    }
  }

  lemma PopKeepsEnds(s: State, t: Ref, k: Ref)
    requires t in s.tasks && s.tasks[t].queue != [] && Whole(s, k)
    ensures SameEnds(s, Pop(s, t), k)
  {
  }

  /** The task at the other end reads until what it waits for is next. */
  lemma {:induction false} ReadUpTo(j: Joint, k: Ref, who: Sender, urls: Table<nat>, respond: Exchange.Respond)
      returns (events: seq<Event>, j': Joint)
    requires Sound(j, k, urls, respond) && Waiting(j.x) && Whole(j.s, k) && Receiver(j.s, k, who) in j.s.tasks
    requires if who == CLIENT then j.x.toServer != [] && j.x.toClient == [] else j.x.toClient != []
    ensures Goes(j, events, j', k, urls, respond) && Sound(j', k, urls, respond) && StillWaits(j.x, j'.x, who)
    ensures SameEnds(j.s, j'.s, k) && Next(j'.s, Receiver(j.s, k, who), k, who)
    ensures who == CLIENT ==> j'.x.toClient == []
    decreases |j.s.tasks[Receiver(j.s, k, who)].queue|
  {
    hide Inv, Reachable, CmdOk, Step, LibStep, Whole, FactOf, Took, Channel, Agrees, Exchange.Good, Exchange.Step,
         Waiting, StillWaits, Receiver, ReadEvent, Runs, Then, Pop, Goes;
    var t := Receiver(j.s, k, who);
    ReachableInv(j.s);
    EndsRead(j.s, k, who);
    ChannelOf(j.s, j.lib, j.x, k, who);
    if j.s.tasks[t].queue == [] {
      EmptyQueue(j.s, k, who);
      assert false;
    }
    ReadStays(j.s, t);
    if Took(j.s, ReadOf(t), k, who) != [] {
      events, j' := [], j;
      WaitSame(j.x, who);
      GoesNowhere(j, k, urls, respond);
    } else {
      var e := ReadEvent(j, t, k);
      var j1 := Then(j, e, urls, respond);
      WaitingIdle(j.x);
      ReadRuns(j, t, k, urls, respond);
      ReadPast(j, t, k, who, urls, respond);
      PopKeepsEnds(j.s, t, k);
      StillWaiting(j.x, j1.x, who);
      if who == CLIENT {
        ClientHearsNothing(j, t, k, urls, respond);
      }
      events, j' := ReadUpTo(j1, k, who, urls, respond);
      GoesOne(j, e, k, urls, respond);
      GoesOn(j, [e], j1, events, j', k, urls, respond);
      WaitTrans(j.x, j1.x, j'.x, who);
      events := [e] + events;
    }
  }

  lemma GoesNowhere(j: Joint, k: Ref, urls: Table<nat>, respond: Exchange.Respond)
    ensures Goes(j, [], j, k, urls, respond)
  {
  }

  lemma WaitingIdle(x: Exchange.Link)
    requires Waiting(x)
    ensures !x.dead && !x.serverBusy && !x.clientBusy
  {
  }

  lemma StillWaiting(x: Exchange.Link, x': Exchange.Link, who: Sender)
    requires StillWaits(x, x', who)
    ensures Waiting(x') && (if who == CLIENT then x'.toServer == x.toServer else x'.toClient == x.toClient)
  {
    hide Waiting, Exchange.Known;
  }

  /** The server's reading of something else puts nothing into the client's queue. */
  lemma ClientHearsNothing(j: Joint, t: Ref, k: Ref, urls: Table<nat>, respond: Exchange.Respond)
    requires Sound(j, k, urls, respond) && Waiting(j.x) && Whole(j.s, k) && j.x.toClient == []
    requires t in j.s.tasks && !j.s.tasks[t].monitor && j.s.tasks[t].queue != []
    ensures Then(j, ReadEvent(j, t, k), urls, respond).x.toClient == []
  {
    hide Reachable, CmdOk, Step, LibStep, NextState, NextTables, Whole, FactOf, Took, Heard, Agrees, Exchange.Good,
         Channel, Receiver, LibServer.Handle, Exchange.Known, Exchange.Foreign;
  }

  // ---------- answering ----------

  lemma WillReply(x: Exchange.Link, urls: Table<nat>, respond: Exchange.Respond)
    requires Exchange.Good(x, urls, respond) && x.serverBusy && Exchange.HasPages(x) && x.calls != []
    requires Exchange.Target(urls, Exchange.Last(x).url).Some?
    ensures WillAnswer(x, urls)
  {
    hide Exchange.ReadRequest, Exchange.RequestFits, Exchange.RespondFits, Exchange.Own, Exchange.HasPages,
         Exchange.Target;
    Exchange.RequestRead(x.bytes, x.beyond, Exchange.Last(x));
  }

  function Reply(s: State, k: Ref): Event
    requires Whole(s, k)
  {
    Event(Some(ServerEndWriting(FactOf(s, k).server, FactOf(s, k).sub)), Some(Exchange.ServerAnswer))
  }

  lemma ReplyRuns(j: Joint, k: Ref, urls: Table<nat>, respond: Exchange.Respond)
    requires Sound(j, k, urls, respond) && Whole(j.s, k) && WillAnswer(j.x, urls)
    ensures Runs(j, Reply(j.s, k), k, urls)
    ensures SameEnds(j.s, Then(j, Reply(j.s, k), urls, respond).s, k)
  {
    hide Reachable, Agrees, Exchange.Good, WillAnswer, FactOf, Whole, Step, DriverOutcomes.ConnectedOver,
         DriverOutcomes.ServerExists, Receiver, LibStep, Exchange.Step;
    var cmd := ServerEndWriting(FactOf(j.s, k).server, FactOf(j.s, k).sub);
    OverLive(j.s, k);
    DriverOutcomes.MessageOutcome(j.s, cmd);
    StepSameConn(j.s, cmd, k);
  }

  lemma OverLive(s: State, k: Ref)
    requires Whole(s, k)
    ensures DriverOutcomes.ConnectedOver(s, FactOf(s, k).server, FactOf(s, k).sub)
  {
    hide Whole, FactOf;
    assert DriverOutcomes.ConnOver(s, FactOf(s, k).server, FactOf(s, k).sub, k);
  }

  /** Why a connection must not begin with anything over its sub-memory waiting for the server: a server that still has
      an earlier client's message to answer calls the driver with the same two identifiers, and it is the new
      client that gets the answer, whether it has called or not. */
  lemma LeftoverAnswered(s: State, k: Ref)
    requires Reachable(s) && k in s.conns
    ensures Whole(s, k) && Receiver(s, k, SERVER) in s.tasks
    ensures var (s', ret) := Step(s, ServerEndWriting(FactOf(s, k).server, FactOf(s, k).sub));
            && ret == 0 && Whole(s', k) && Receiver(s', k, SERVER) in s'.tasks
            && Channel(s', k, SERVER) == Channel(s, k, SERVER) + [NEW_MESSAGE]
  {
    hide Inv, Reachable, Whole, FactOf, Receiver, Channel, Step, KindsOf, Taking, DriverOutcomes.ConnectedOver,
         DriverOutcomes.ServerExists;
    ReachableInv(s);
    AllWhole(s);
    var cmd := ServerEndWriting(FactOf(s, k).server, FactOf(s, k).sub);
    OverLive(s, k);
    DriverOutcomes.MessageOutcome(s, cmd);
    ChannelMoves(s, cmd, k, SERVER);
    assert Took(s, cmd, k, SERVER) == [] by {
      OneAtATime(s, cmd, k);
    }
  }

  // ---------- from the request to the callback ----------

  /** The server's process has read the message and can answer it. */
  predicate Answering(x: Exchange.Link, urls: Table<nat>) {
    && x.serverBusy && Exchange.HasPages(x) && x.calls != [] && Exchange.Target(urls, Exchange.Last(x).url).Some?
    && x.sent && Exchange.InFlight(x) == 1 && !x.dead && !x.clientBusy && x.toClient == []
  }

  predicate SameHistory(x: Exchange.Link, x': Exchange.Link) {
    x'.calls == x.calls && x'.delivered == x.delivered
  }

  lemma ReadTheNext(j: Joint, t: Ref, k: Ref, who: Sender)
    requires Next(j.s, t, k, who)
    ensures ReadEvent(j, t, k).move == Some(if who == CLIENT then Exchange.ServerTake else Exchange.ClientTake)
  {
    hide Whole, FactOf, Took, Step, OtherHeard;
    ReadStays(j.s, t);
    OneAtATime(j.s, ReadOf(t), k);
  }

  lemma NextReads(j: Joint, t: Ref, k: Ref, who: Sender, urls: Table<nat>, respond: Exchange.Respond)
      returns (j': Joint)
    requires Sound(j, k, urls, respond) && Waiting(j.x) && Next(j.s, t, k, who)
    ensures Goes(j, [ReadEvent(j, t, k)], j', k, urls, respond) && Sound(j', k, urls, respond) && SameEnds(j.s, j'.s, k)
    ensures j'.x == Exchange.Step(j.x, if who == CLIENT then Exchange.ServerTake else Exchange.ClientTake, urls,
            respond)
  {
    hide Reachable, CmdOk, Step, LibStep, Whole, FactOf, Took, Agrees, Exchange.Good, Exchange.Step, Exchange.InFlight,
         Receiver, ReadEvent, Pop, Runs, Goes;
    ReadStays(j.s, t);
    ReadRuns(j, t, k, urls, respond);
    ReadTheNext(j, t, k, who);
    PopKeepsEnds(j.s, t, k);
    j' := Then(j, ReadEvent(j, t, k), urls, respond);
    GoesOne(j, ReadEvent(j, t, k), k, urls, respond);
  }

  lemma StillAnswerable(x: Exchange.Link, x': Exchange.Link, urls: Table<nat>, respond: Exchange.Respond)
    requires Exchange.Good(x, urls, respond) && Exchange.Good(x', urls, respond)
    requires ExchangeFate.Arriving(x) && x.calls != [] && ExchangeFate.Answerable(x, urls)
    requires StillWaits(x, x', CLIENT) && x'.toClient == []
    ensures Answering(Exchange.Step(x', Exchange.ServerTake, urls, respond), urls)
    ensures SameHistory(x, Exchange.Step(x', Exchange.ServerTake, urls, respond))
  {
    hide Exchange.Good, Exchange.Known, Exchange.HasPages, Exchange.Target, Exchange.Own, ExchangeFate.Fate;
    ExchangeFate.GoodOwn(x, urls, respond);
    ExchangeFate.GoodOwn(x', urls, respond);
    Exchange.PagesUnlessZero(x);
    Exchange.PagesUnlessZero(x');
    ExchangeFate.Take(x', urls, respond);
    var x2 := Exchange.Step(x', Exchange.ServerTake, urls, respond);
    SameSlot(x', x2);
    Exchange.ServerTakeGood(x', urls, respond);
    ExchangeFate.TurnOf(x2, urls, respond);
    ExchangeFate.StrandsExactly(x', Exchange.ServerTake, urls, respond);
    ExchangeFate.FateMeans(x', Exchange.ServerTake, urls, respond);
  }

  lemma SameSlot(x: Exchange.Link, x': Exchange.Link)
    requires x'.ends == x.ends && x'.table == x.table
    ensures Exchange.HasPages(x') == Exchange.HasPages(x)
  {
  }

  lemma ServerReads(j: Joint, k: Ref, urls: Table<nat>, respond: Exchange.Respond)
      returns (events: seq<Event>, j': Joint)
    requires Sound(j, k, urls, respond) && ExchangeFate.Arriving(j.x) && j.x.calls != []
    requires ExchangeFate.Answerable(j.x, urls)
    ensures Goes(j, events, j', k, urls, respond) && Sound(j', k, urls, respond)
    ensures Answering(j'.x, urls) && SameHistory(j.x, j'.x)
  {
    hide Reachable, Whole, FactOf, Agrees, Exchange.Good, Exchange.Step, Exchange.InFlight, Receiver, Goes, Took,
         StillWaits, Answering, ExchangeFate.Answerable;
    ExchangeFate.ArrivingSent(j.x, urls, respond);
    ChannelOf(j.s, j.lib, j.x, k, CLIENT);
    var before, j1 := ReadUpTo(j, k, CLIENT, urls, respond);
    StillWaiting(j.x, j1.x, CLIENT);
    var t := Receiver(j.s, k, CLIENT);
    j' := NextReads(j1, t, k, CLIENT, urls, respond);
    GoesOn(j, before, j1, [ReadEvent(j1, t, k)], j', k, urls, respond);
    events := before + [ReadEvent(j1, t, k)];
    StillAnswerable(j.x, j1.x, urls, respond);
  }

  lemma ServerReplies(j: Joint, k: Ref, urls: Table<nat>, respond: Exchange.Respond) returns (j': Joint)
    requires Sound(j, k, urls, respond) && Whole(j.s, k) && Answering(j.x, urls)
    ensures Goes(j, [Reply(j.s, k)], j', k, urls, respond) && Sound(j', k, urls, respond)
    ensures Waiting(j'.x) && j'.x.toClient == [NEW_MESSAGE] && SameHistory(j.x, j'.x)
  {
    hide Reachable, Whole, FactOf, Agrees, Exchange.Good, Receiver, Runs, Goes, Exchange.Target, Exchange.HasPages,
         WillAnswer, Exchange.Step, CmdOk, Step, LibStep, ExchangeFate.Fate;
    WillReply(j.x, urls, respond);
    ReplyRuns(j, k, urls, respond);
    ReplyOk(j, k, urls);
    j' := Then(j, Reply(j.s, k), urls, respond);
    ThenSound(j, Reply(j.s, k), k, urls, respond);
    GoesOne(j, Reply(j.s, k), k, urls, respond);
    assert j'.x == Exchange.Step(j.x, Exchange.ServerAnswer, urls, respond);
    AnswerWaits(j.x, urls, respond);
  }

  lemma ReplyOk(j: Joint, k: Ref, urls: Table<nat>)
    requires Whole(j.s, k) && Runs(j, Reply(j.s, k), k, urls)
    ensures Reply(j.s, k).cmd.Some? && CmdOk(j.s, Reply(j.s, k).cmd.value)
  {
    hide Whole, FactOf, Step, Proper, NextState;
  }

  lemma AnswerWaits(x: Exchange.Link, urls: Table<nat>, respond: Exchange.Respond)
    requires Exchange.Good(x, urls, respond) && Answering(x, urls)
    ensures var x' := Exchange.Step(x, Exchange.ServerAnswer, urls, respond);
            Waiting(x') && x'.toClient == [NEW_MESSAGE] && SameHistory(x, x')
  {
    hide Exchange.Good, Exchange.Target, Exchange.HasPages, Exchange.ReadRequest, Exchange.WriteResponse,
         ExchangeFate.Fate, Exchange.Messages;
    Exchange.AnswerGood(x, urls, respond);
    var x' := Exchange.Step(x, Exchange.ServerAnswer, urls, respond);
    ExchangeFate.TurnOf(x', urls, respond);
    ExchangeFate.StrandsExactly(x, Exchange.ServerAnswer, urls, respond);
    ExchangeFate.FateMeans(x, Exchange.ServerAnswer, urls, respond);
  }

  const DELIVER: Event := Event(None, Some(Exchange.ClientDeliver))

  lemma DeliverRuns(j: Joint, k: Ref, urls: Table<nat>, respond: Exchange.Respond)
    requires Sound(j, k, urls, respond) && Whole(j.s, k)
    ensures Runs(j, DELIVER, k, urls)
    ensures Then(j, DELIVER, urls, respond).x == Exchange.Step(j.x, Exchange.ClientDeliver, urls, respond)
  {
    hide Reachable, Agrees, Exchange.Good, Exchange.Step, Whole;
  }

  lemma ClientHears(j: Joint, k: Ref, urls: Table<nat>, respond: Exchange.Respond)
      returns (events: seq<Event>, j': Joint)
    requires Sound(j, k, urls, respond) && Waiting(j.x) && j.x.toClient == [NEW_MESSAGE]
    ensures Goes(j, events, j', k, urls, respond) && Sound(j', k, urls, respond)
    ensures j.x.calls != [] && Exchange.Answer(Exchange.Last(j.x), urls, respond).Some? && !j'.x.sent
    ensures j'.x.calls == j.x.calls
    ensures j'.x.delivered ==
            j.x.delivered + [Outcome(j.x, urls, respond)]
  {
    hide Reachable, Whole, FactOf, Agrees, Exchange.Good, Exchange.Step, Exchange.InFlight, Receiver, Goes, Took,
         Exchange.Known, Runs, CmdOk, Step, LibStep, Exchange.Answer, Then;
    ChannelOf(j.s, j.lib, j.x, k, SERVER);
    var before, j1 := ReadUpTo(j, k, SERVER, urls, respond);
    StillWaiting(j.x, j1.x, SERVER);
    var t := Receiver(j.s, k, SERVER);
    var e := ReadEvent(j1, t, k);
    var j2 := NextReads(j1, t, k, SERVER, urls, respond);
    GoesOn(j, before, j1, [e], j2, k, urls, respond);
    DeliverRuns(j2, k, urls, respond);
    ThenSound(j2, DELIVER, k, urls, respond);
    j' := Then(j2, DELIVER, urls, respond);
    GoesOne(j2, DELIVER, k, urls, respond);
    GoesOn(j, before + [e], j2, [DELIVER], j', k, urls, respond);
    events := before + [e] + [DELIVER];
    ExchangeFate.Returned(j1.x, urls, respond);
  }

  /** From any moment at which the server is about to read an answerable request: reads by the two tasks at the ends of
      the connection and one message call by the server, none of which fails, with the moves of the two libraries,
      deliver the request's own answer to its callback and leave the client free, whatever else waits in the two
      queues. */
  lemma AnswerArrives(j: Joint, k: Ref, urls: Table<nat>, respond: Exchange.Respond)
      returns (events: seq<Event>, j': Joint)
    requires Sound(j, k, urls, respond) && ExchangeFate.Arriving(j.x) && j.x.calls != []
    requires ExchangeFate.Answerable(j.x, urls)
    ensures Goes(j, events, j', k, urls, respond) && Sound(j', k, urls, respond)
    ensures Exchange.Answer(Exchange.Last(j.x), urls, respond).Some? && !j'.x.sent && j'.x.calls == j.x.calls
    ensures j'.x.delivered ==
            j.x.delivered + [Outcome(j.x, urls, respond)]
  {
    hide Reachable, Whole, FactOf, Agrees, Exchange.Good, Exchange.Step, Exchange.InFlight, Receiver, Goes, Answering,
         Waiting, Exchange.Answer, ExchangeFate.Answerable;
    var first, j1 := ServerReads(j, k, urls, respond);
    ChannelOf(j1.s, j1.lib, j1.x, k, CLIENT);
    var j2 := ServerReplies(j1, k, urls, respond);
    var rest;
    rest, j' := ClientHears(j2, k, urls, respond);
    GoesOn(j, first, j1, [Reply(j1.s, k)], j2, k, urls, respond);
    GoesOn(j, first + [Reply(j1.s, k)], j2, rest, j', k, urls, respond);
    events := first + [Reply(j1.s, k)] + rest;
  }

  // ---------- as part of a run ----------

  /** Any run can be continued in this way. */
  lemma {:induction false} RunGoesOn(states: seq<State>, libs: seq<Tables>, links: seq<Exchange.Link>,
                                     events: seq<Event>, k: Ref,
                                     urls: Table<nat>, respond: Exchange.Respond, more: seq<Event>, j': Joint)
      returns (states': seq<State>, libs': seq<Tables>, links': seq<Exchange.Link>)
    requires JointRun(states, libs, links, events, k, urls, respond)
    requires Goes(Joint(states[|events|], libs[|events|], links[|events|]), more, j', k, urls, respond)
    ensures JointRun(states', libs', links', events + more, k, urls, respond)
    ensures states <= states' && libs <= libs' && links <= links'
    ensures j' == Joint(states'[|events + more|], libs'[|events + more|], links'[|events + more|])
    decreases |more|
  {
    hide CmdOk, Step, Proper, NextState, NextTables, NextLink;
    if more == [] {
      states', libs', links' := states, libs, links;
      assert events + more == events;
    } else {
      var j := Joint(states[|events|], libs[|events|], links[|events|]);
      var j1 := Then(j, more[0], urls, respond);
      OneEventMore(states, libs, links, events, k, urls, respond, more[0]);
      states', libs', links' := RunGoesOn(states + [j1.s], libs + [j1.lib], links + [j1.x], events + [more[0]], k,
          urls, respond, more[1..], j');
      assert events + [more[0]] + more[1..] == events + more;
    }
  }

  lemma OneEventMore(states: seq<State>, libs: seq<Tables>, links: seq<Exchange.Link>, events: seq<Event>, k: Ref,
                     urls: Table<nat>, respond: Exchange.Respond, e: Event)
    requires JointRun(states, libs, links, events, k, urls, respond)
    requires Runs(Joint(states[|events|], libs[|events|], links[|events|]), e, k, urls)
    ensures var j1 := Then(Joint(states[|events|], libs[|events|], links[|events|]), e, urls, respond);
            JointRun(states + [j1.s], libs + [j1.lib], links + [j1.x], events + [e], k, urls, respond)
  {
    hide CmdOk, Step, Proper, NextState, NextTables, NextLink;
  }

  /** In every run from a connection's beginning: a request that is about to be read, by a server that knows the
      connection and has its memory, and whose address leads to a handler, is carried to its callback by a
      continuation of the run. */
  lemma EveryAnswerArrives(states: seq<State>, libs: seq<Tables>, links: seq<Exchange.Link>, events: seq<Event>, k: Ref,
                           urls: Table<nat>, respond: Exchange.Respond)
      returns (more: seq<Event>, states': seq<State>, libs': seq<Tables>, links': seq<Exchange.Link>)
    requires JointRun(states, libs, links, events, k, urls, respond) && Begins(states[0], libs[0], links[0], k, respond)
    requires ExchangeFate.Arriving(links[|events|])
    requires links[|events|].calls != [] && ExchangeFate.Answerable(links[|events|], urls)
    ensures JointRun(states', libs', links', events + more, k, urls, respond)
    ensures states <= states' && libs <= libs' && links <= links'
    ensures var x, x' := links[|events|], links'[|events + more|];
            && Exchange.Answer(Exchange.Last(x), urls, respond).Some? && !x'.sent && x'.calls == x.calls
            && x'.delivered == x.delivered + [Outcome(x, urls, respond)]
  {
    hide Begins, Reachable, Agrees, Exchange.Good, Goes, ExchangeFate.Answerable, Exchange.Answer, CmdOk, Proper,
         NextState, NextTables, NextLink, Exchange.MoveFits;
    DriverCarriesExchange(states, libs, links, events, k, urls, respond, |events|);
    var j := Joint(states[|events|], libs[|events|], links[|events|]);
    var j';
    more, j' := AnswerArrives(j, k, urls, respond);
    states', libs', links' := RunGoesOn(states, libs, links, events, k, urls, respond, more, j');
  }

  /** While no server has more than sixteen mapped connections, that goes for every request that reaches its server,
      over a sub-memory that is not called 0, with an address that leads to a handler. */
  lemma EveryRequestServed(states: seq<State>, libs: seq<Tables>, links: seq<Exchange.Link>, events: seq<Event>, k: Ref,
                           urls: Table<nat>, respond: Exchange.Respond)
      returns (more: seq<Event>, states': seq<State>, libs': seq<Tables>, links': seq<Exchange.Link>)
    requires JointRun(states, libs, links, events, k, urls, respond) && Begins(states[0], libs[0], links[0], k, respond)
    requires Joined(libs[0], states[0]) && forall i | 0 <= i < |states| :: MirrorRuns.Fits(states[i])
    requires ExchangeFate.Arriving(links[|events|]) && links[|events|].ends.sub != 0 && Sorted(urls)
    requires links[|events|].calls != [] ==> Exchange.Served(urls, Exchange.Last(links[|events|]).url)
    ensures JointRun(states', libs', links', events + more, k, urls, respond)
    ensures states <= states' && libs <= libs' && links <= links'
    ensures var x, x' := links[|events|], links'[|events + more|];
            && x.calls != [] && !x'.sent && x'.calls == x.calls
            && Exchange.DeliversNext(x.delivered, x'.delivered, Exchange.Last(x), urls, respond)
  {
    hide Begins, Reachable, Agrees, Exchange.Good, Exchange.Known, Exchange.HasPages, Exchange.Target, Exchange.Play,
         Exchange.Answer, ExchangeFate.Stranded, Joined, MirrorRuns.Fits, CmdOk, Proper, NextState, NextTables,
         NextLink, Exchange.MoveFits, Exchange.Own, Exchange.Served, Exchange.Delivers, Sorted;
    DriverCarriesExchange(states, libs, links, events, k, urls, respond, |events|);
    RequestsReachHandlers(states, libs, links, events, k, urls, respond, |events|);
    ExchangeFate.GoodOwn(links[|events|], urls, respond);
    Exchange.PagesUnlessZero(links[|events|]);
    var x := links[|events|];
    Exchange.TargetLeast(urls, Exchange.Last(x).url, 0);
    more, states', libs', links' := EveryAnswerArrives(states, libs, links, events, k, urls, respond);
    Exchange.AnswerDelivers(Exchange.Last(x), urls, respond, x.delivered, links'[|events + more|].delivered);
  }
}
