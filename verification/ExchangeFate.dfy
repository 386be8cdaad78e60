/** What becomes of a request: exactly when it is answered, and what happens to a client whose request is not. */
module ExchangeFate {
  import opened DriverModel
  import opened Framing
  import opened Routing
  import opened Exchange
  import FramingLaws
  import LibServer

  // ---------- one move ----------

  /** The server reads the message and does not find the connection in its table. */
  predicate TakesUnknown(x: Link, m: Move) {
    m.ServerTake? && !x.dead && !x.serverBusy && x.toServer != [] && x.toServer[0] == NEW_MESSAGE && !Known(x)
  }

  /** The server deals with a request without having been given the connection's memory. */
  predicate LacksMemory(x: Link, m: Move) {
    m.ServerAnswer? && x.serverBusy && !HasPages(x)
  }

  /** The server deals with a request whose address leads to no handler. */
  predicate FindsNoHandler(x: Link, m: Move, urls: Table<nat>) {
    m.ServerAnswer? && x.serverBusy && x.calls != [] && Target(urls, Last(x).url).None?
  }

  /** A pending call moves on, or is delivered with its own answer, or is lost. It is lost in exactly three cases, and
      in one of them the server's process dies. */
  ghost predicate Fate(x: Link, m: Move, urls: Table<nat>, respond: Respond) {
    var x' := Step(x, m, urls, respond);
    && x'.calls == x.calls && x.calls != []
    && (x'.sent && InFlight(x') == 0 <==> TakesUnknown(x, m) || LacksMemory(x, m) || FindsNoHandler(x, m, urls))
    && (x'.dead <==> LacksMemory(x, m))
    && (!x'.sent <==> m.ClientDeliver? && x.clientBusy)
    && (x'.sent ==> x'.delivered == x.delivered)
    && (!x'.sent ==>
          && Answer(Last(x), urls, respond).Some?
          && x'.delivered == x.delivered + [(Last(x).callback, Got(Answer(Last(x), urls, respond).value))])
  }

  lemma StrandsExactly(x: Link, m: Move, urls: Table<nat>, respond: Respond)
    requires Good(x, urls, respond) && x.sent && InFlight(x) == 1 && MoveFits(m, |x.bytes|)
    ensures Fate(x, m, urls, respond)
  {
    hide Good, Step, Answer, Target, RequestFits, RespondFits, Own, Known, FramingLaws.Encode;
    TurnOf(x, urls, respond);
    match m
    case Map => MapFate(x, urls, respond);
    case CallServer(r) => CallFate(x, r, urls, respond);
    case ServerTake => TakeFate(x, urls, respond);
    case ServerOther(n, granted) => OtherFate(x, n, granted, urls, respond);
    case ServerAnswer => AnswerFate(x, urls, respond);
    case ClientTake => ClientTakeFate(x, urls, respond);
    case ClientDeliver => DeliverFate(x, urls, respond);
  }

  lemma TurnOf(x: Link, urls: Table<nat>, respond: Respond)
    requires Good(x, urls, respond)
    ensures Orderly(x) && Turn(x, urls, respond) && (x.sent ==> x.calls != []) &&
            (x.dead ==> x.sent && InFlight(x) == 0)
  {
    hide FramingLaws.Encode, Answer, RequestFits, RespondFits, Own, Matched;
  }

  lemma MapFate(x: Link, urls: Table<nat>, respond: Respond)
    requires x.sent && InFlight(x) == 1 && x.calls != [] && !x.dead
    ensures Fate(x, Map, urls, respond)
  {
    hide Answer, Target, Known;
    MessagesAdd(x.toServer, NEW_CONNECTION);
  }

  lemma CallFate(x: Link, r: Request, urls: Table<nat>, respond: Respond)
    requires x.sent && InFlight(x) == 1 && x.calls != [] && !x.dead
    ensures Fate(x, CallServer(r), urls, respond)
  {
    hide Answer, Target, Known, WriteRequest;
  }

  lemma TakeFate(x: Link, urls: Table<nat>, respond: Respond)
    requires Orderly(x) && x.sent && InFlight(x) == 1 && x.calls != [] && !x.dead
    ensures Fate(x, ServerTake, urls, respond)
  {
    hide Answer, Target, Known, RequestFits, LibServer.Handle;
  }

  lemma OtherFate(x: Link, n: Notif, granted: bool, urls: Table<nat>, respond: Respond)
    requires x.sent && InFlight(x) == 1 && x.calls != [] && !x.dead
    ensures Fate(x, ServerOther(n, granted), urls, respond)
  {
    hide Answer, Target, Known, LibServer.Handle, Foreign;
  }

  lemma AnswerFate(x: Link, urls: Table<nat>, respond: Respond)
    requires Good(x, urls, respond) && x.sent && InFlight(x) == 1 && x.calls != [] && !x.dead
    ensures Fate(x, ServerAnswer, urls, respond)
  {
    hide Good, Answer, Target, Known, ReadRequest, WriteResponse, Messages;
    AnswerGood(x, urls, respond);
    MessagesAdd(x.toClient, NEW_MESSAGE);
  }

  lemma ClientTakeFate(x: Link, urls: Table<nat>, respond: Respond)
    requires Orderly(x) && x.sent && InFlight(x) == 1 && x.calls != [] && !x.dead
    ensures Fate(x, ClientTake, urls, respond)
  {
    hide Answer, Target, Known, RequestFits;
  }

  lemma DeliverFate(x: Link, urls: Table<nat>, respond: Respond)
    requires Good(x, urls, respond) && x.sent && InFlight(x) == 1 && x.calls != [] && !x.dead
    ensures Fate(x, ClientDeliver, urls, respond)
  {
    hide Good, Answer, Target, Known, FetchPayload, Messages;
    if x.clientBusy {
      TurnOf(x, urls, respond);
      CallbackSet(x, urls, respond);
      DeliverGood(x, urls, respond);
      LastDelivered(Step(x, ClientDeliver, urls, respond), urls, respond);
    }
  }

  lemma CallbackSet(x: Link, urls: Table<nat>, respond: Respond)
    requires Turn(x, urls, respond) && x.sent
    ensures x.callback.Some? && |x.calls| == |x.delivered| + 1
  {
    hide FramingLaws.Encode, Answer, Messages;
  }

  lemma LastDelivered(x: Link, urls: Table<nat>, respond: Respond)
    requires Good(x, urls, respond) && |x.calls| == |x.delivered| && x.calls != []
    ensures Answer(Last(x), urls, respond).Some?
    ensures x.delivered[|x.delivered| - 1] == (Last(x).callback, Got(Answer(Last(x), urls, respond).value))
  {
    hide Answer, Orderly, Turn, RespondFits, Own;
  }

  // ---------- lost requests ----------

  /** The client waits and nothing is on its way. */
  ghost predicate Stranded(x: Link) {
    && x.sent && InFlight(x) == 0
    && (forall i | 0 <= i < |x.toServer| :: x.toServer[i] == NEW_CONNECTION) && x.toClient == []
  }

  lemma StrandedStays(x: Link, m: Move, urls: Table<nat>, respond: Respond)
    requires Stranded(x)
    ensures var x' := Step(x, m, urls, respond);
            Stranded(x') && x'.calls == x.calls && x'.delivered == x.delivered && x'.dead == x.dead
  {
    hide LibServer.Handle, Known;
    MessagesAdd(x.toServer, NEW_CONNECTION);
  }

  lemma {:induction false} StrandedForever(x: Link, moves: seq<Move>, urls: Table<nat>, respond: Respond)
    requires Stranded(x)
    ensures var x' := Play(x, moves, urls, respond);
            Stranded(x') && x'.calls == x.calls && x'.delivered == x.delivered && x'.dead == x.dead
    decreases |moves|
  {
    hide Step, Stranded;
    if moves != [] {
      StrandedStays(x, moves[0], urls, respond);
      StrandedForever(Step(x, moves[0], urls, respond), moves[1..], urls, respond);
    }
  }

  lemma {:induction false} NoMessages(q: seq<Kind>)
    requires Messages(q) == 0 && forall i | 0 <= i < |q| :: q[i] == NEW_CONNECTION || q[i] == NEW_MESSAGE
    ensures forall i | 0 <= i < |q| :: q[i] == NEW_CONNECTION
  {
    if q != [] {
      NoMessages(q[1..]);
      assert forall i | 1 <= i < |q| :: q[i] == q[1..][i - 1];
    }
  }

  lemma NothingUnderWay(x: Link)
    requires Orderly(x) && x.sent
    ensures Stranded(x) <==> InFlight(x) == 0
  {
    hide RequestFits;
    if InFlight(x) == 0 {
      NoMessages(x.toServer);
      NoMessages(x.toClient);
    }
  }

  // ---------- a request in the server's hands ----------

  /** A message is the next thing that the idle server will read about the connection. */
  predicate Arriving(x: Link) {
    x.toServer != [] && x.toServer[0] == NEW_MESSAGE && !x.serverBusy
  }

  lemma ArrivingSent(x: Link, urls: Table<nat>, respond: Respond)
    requires Good(x, urls, respond) && Arriving(x)
    ensures x.sent && InFlight(x) == 1 && x.calls != [] && x.toClient == [] && !x.clientBusy && !x.dead
  {
    hide FramingLaws.Encode, Answer, RequestFits, RespondFits, Own, Matched;
    NoMessages(x.toClient);
  }

  /** The server has the connection in its table, its memory mapped, and a handler for the address. */
  predicate Answerable(x: Link, urls: Table<nat>)
    requires x.calls != []
  {
    Known(x) && HasPages(x) && Target(urls, Last(x).url).Some?
  }

  function Handled(x: Link, urls: Table<nat>, respond: Respond): Link {
    Step(Step(x, ServerTake, urls, respond), ServerAnswer, urls, respond)
  }

  lemma HandledPlay(x: Link, urls: Table<nat>, respond: Respond)
    ensures Play(x, [ServerTake, ServerAnswer], urls, respond) == Handled(x, urls, respond)
  {
    hide Step;
    var x1 := Step(x, ServerTake, urls, respond);
    assert [ServerTake, ServerAnswer][1..] == [ServerAnswer] && [ServerAnswer][1..] == [];
    assert Play(Step(x1, ServerAnswer, urls, respond), [], urls, respond) == Step(x1, ServerAnswer, urls, respond);
    assert Play(x1, [ServerAnswer], urls, respond) == Step(x1, ServerAnswer, urls, respond);
  }

  lemma {:induction false} PlayMore(x: Link, moves: seq<Move>, more: seq<Move>, urls: Table<nat>, respond: Respond)
    ensures Play(x, moves + more, urls, respond) == Play(Play(x, moves, urls, respond), more, urls, respond)
    decreases |moves|
  {
    hide Step;
    if moves == [] {
      assert moves + more == more;
    } else {
      assert (moves + more)[0] == moves[0] && (moves + more)[1..] == moves[1..] + more;
      PlayMore(Step(x, moves[0], urls, respond), moves[1..], more, urls, respond);
    }
  }

  lemma Take(x: Link, urls: Table<nat>, respond: Respond)
    requires Arriving(x) && !x.dead
    ensures Step(x, ServerTake, urls, respond) == x.(toServer := x.toServer[1..], serverBusy := Known(x))
  {
    hide Known;
  }

  lemma HandledFate(x: Link, urls: Table<nat>, respond: Respond)
    requires Good(x, urls, respond) && Arriving(x)
    ensures x.calls != [] && x.sent && Good(Handled(x, urls, respond), urls, respond)
    ensures var x2 := Handled(x, urls, respond);
            && x2.sent && x2.calls == x.calls && x2.delivered == x.delivered && !x2.clientBusy
            && (Answerable(x, urls) ==> x2.toClient == [NEW_MESSAGE] && !Stranded(x2))
            && (!Answerable(x, urls) ==> Stranded(x2))
            && (x2.dead <==> Known(x) && !HasPages(x))
  {
    hide Good, Listed, Target, Answer, ReadRequest, WriteResponse, Messages, Stranded, Fate;
    ArrivingSent(x, urls, respond);
    Take(x, urls, respond);
    StrandsExactly(x, ServerTake, urls, respond);
    ServerTakeGood(x, urls, respond);
    var x1 := Step(x, ServerTake, urls, respond);
    FateMeans(x, ServerTake, urls, respond);
    AnswerGood(x1, urls, respond);
    var x2 := Step(x1, ServerAnswer, urls, respond);
    TurnOf(x2, urls, respond);
    TurnOf(x1, urls, respond);
    if Known(x) {
      assert InFlight(x1) == 1;
      StrandsExactly(x1, ServerAnswer, urls, respond);
      FateMeans(x1, ServerAnswer, urls, respond);
    }
    NothingUnderWay(x2);
  }

  lemma FateMeans(x: Link, m: Move, urls: Table<nat>, respond: Respond)
    requires Fate(x, m, urls, respond) && x.sent && !m.ClientDeliver?
    ensures var x' := Step(x, m, urls, respond);
            && x'.sent && x'.calls == x.calls && x'.delivered == x.delivered && x.calls != []
            && (InFlight(x') == 0 <==> TakesUnknown(x, m) || LacksMemory(x, m) || FindsNoHandler(x, m, urls))
            && (x'.dead <==> LacksMemory(x, m))
  {
    hide Step, Known, HasPages, Target, Answer, InFlight;
  }

  /** The four moves by which a request is dealt with. */
  const ROUND: seq<Move> := [ServerTake, ServerAnswer, ClientTake, ClientDeliver]

  lemma RoundPlay(x: Link, urls: Table<nat>, respond: Respond)
    ensures Play(x, ROUND, urls, respond) ==
            Step(Step(Handled(x, urls, respond), ClientTake, urls, respond), ClientDeliver, urls, respond)
  {
    hide Step, Handled;
    HandledPlay(x, urls, respond);
    var x2 := Handled(x, urls, respond);
    var x3 := Step(x2, ClientTake, urls, respond);
    assert ROUND == [ServerTake, ServerAnswer] + [ClientTake, ClientDeliver];
    PlayMore(x, [ServerTake, ServerAnswer], [ClientTake, ClientDeliver], urls, respond);
    assert [ClientTake, ClientDeliver][1..] == [ClientDeliver] && [ClientDeliver][1..] == [];
    assert Play(Step(x3, ClientDeliver, urls, respond), [], urls, respond) == Step(x3, ClientDeliver, urls, respond);
    assert Play(x3, [ClientDeliver], urls, respond) == Step(x3, ClientDeliver, urls, respond);
  }

  /** A request that the server is about to read is answered if and only if the server has the connection in its
      table, its memory mapped, and a handler for the address. Then the four moves deliver exactly its answer to
      its callback and leave the client free; otherwise the client is refused for ever, and the server's process
      dies if it was the memory that was missing. */
  lemma TakenMessage(x: Link, moves: seq<Move>, urls: Table<nat>, respond: Respond)
    requires Good(x, urls, respond) && Arriving(x)
    ensures x.calls != []
    ensures Answerable(x, urls) ==>
              var x' := Play(x, ROUND, urls, respond);
              && Answer(Last(x), urls, respond).Some? && !x'.sent && x'.calls == x.calls
              && x'.delivered == x.delivered + [(Last(x).callback, Got(Answer(Last(x), urls, respond).value))]
    ensures !Answerable(x, urls) ==>
              var x' := Play(x, [ServerTake, ServerAnswer] + moves, urls, respond);
              && Stranded(x') && x'.calls == x.calls && x'.delivered == x.delivered
              && (x'.dead <==> Known(x) && !HasPages(x))
  {
    hide Good, Known, HasPages, Target, Answer, Step, Stranded, Play, Answerable, Handled;
    HandledFate(x, urls, respond);
    var x2 := Handled(x, urls, respond);
    if Answerable(x, urls) {
      RoundPlay(x, urls, respond);
      Returned(x2, urls, respond);
    } else {
      HandledPlay(x, urls, respond);
      PlayMore(x, [ServerTake, ServerAnswer], moves, urls, respond);
      StrandedForever(x2, moves, urls, respond);
    }
  }

  /** The way back of an answer. */
  lemma Returned(x: Link, urls: Table<nat>, respond: Respond)
    requires Good(x, urls, respond) && x.toClient == [NEW_MESSAGE] && !x.clientBusy
    ensures var x' := Step(Step(x, ClientTake, urls, respond), ClientDeliver, urls, respond);
            && x.calls != [] && Answer(Last(x), urls, respond).Some? && !x'.sent && x'.calls == x.calls
            && x'.delivered == x.delivered + [(Last(x).callback, Got(Answer(Last(x), urls, respond).value))]
  {
    hide Good, Answer, Step;
    ReplySent(x, urls, respond);
    var x1 := Step(x, ClientTake, urls, respond);
    ClientTakeGood(x, urls, respond);
    ClientTakes(x, urls, respond);
    StrandsExactly(x, ClientTake, urls, respond);
    StrandsExactly(x1, ClientDeliver, urls, respond);
  }

  lemma ReplySent(x: Link, urls: Table<nat>, respond: Respond)
    requires Good(x, urls, respond) && x.toClient == [NEW_MESSAGE]
    ensures x.sent && InFlight(x) == 1
  {
    hide FramingLaws.Encode, Answer, RequestFits, RespondFits, Own, Matched;
    assert Messages(x.toClient) == 1;
  }

  lemma ClientTakes(x: Link, urls: Table<nat>, respond: Respond)
    requires x.toClient == [NEW_MESSAGE] && !x.clientBusy && InFlight(x) == 1
    ensures var x1 := Step(x, ClientTake, urls, respond); x1.clientBusy && x1.sent == x.sent && InFlight(x1) == 1
  {
    assert Messages(x.toClient) == 1;
  }

  // ---------- when the server has the connection in its table ----------

  /** The client's announcement comes before its first message, or has been accepted. */
  predicate Ready(x: Link) {
    && (!x.mapped ==> x.toServer == [])
    && (x.mapped ==> Known(x) || (x.toServer != [] && x.toServer[0] == NEW_CONNECTION))
  }

  /** The server reads the client's announcement and cannot take it in. */
  predicate Turned(x: Link, m: Move) {
    && m.ServerTake? && !x.dead && !x.serverBusy && x.toServer != [] && x.toServer[0] == NEW_CONNECTION
    && !Known(x) && !HasRoom(x.table)
  }

  lemma ReadyStep(x: Link, m: Move, urls: Table<nat>, respond: Respond)
    requires Own(x) && Ready(x) && !Turned(x, m)
    ensures Ready(Step(x, m, urls, respond))
  {
    hide LibServer.Handle, Listed, HasRoom, OwnTable, Foreign, ReadRequest, WriteResponse, Target, WriteRequest,
         FetchPayload, Hello, MayMap;
    HelloOwn(x.ends, x.table);
    if m.ServerOther? && Foreign(x.ends, m.notif) {
      OtherOwn(x.ends, x.table, m.notif, m.granted);
    }
  }

  /** No announcement is turned away in the course of these moves. */
  predicate NeverTurned(x: Link, moves: seq<Move>, urls: Table<nat>, respond: Respond)
    decreases |moves|
  {
    moves == [] || (!Turned(x, moves[0]) && NeverTurned(Step(x, moves[0], urls, respond), moves[1..], urls, respond))
  }

  lemma {:induction false} AlwaysReady(x: Link, moves: seq<Move>, urls: Table<nat>, respond: Respond)
    requires Good(x, urls, respond) && Ready(x) && NeverTurned(x, moves, urls, respond)
    requires forall i | 0 <= i < |moves| :: MoveFits(moves[i], |x.bytes|)
    ensures Ready(Play(x, moves, urls, respond))
    decreases |moves|
  {
    hide Step, Ready, Turned, MoveFits, Good;
    if moves != [] {
      GoodOwn(x, urls, respond);
      ReadyStep(x, moves[0], urls, respond);
      StepGood(x, moves[0], urls, respond);
      AlwaysReady(Step(x, moves[0], urls, respond), moves[1..], urls, respond);
    }
  }

  lemma GoodOwn(x: Link, urls: Table<nat>, respond: Respond)
    requires Good(x, urls, respond)
    ensures Own(x)
  {
  }

  lemma {:induction false} PlayEnds(x: Link, moves: seq<Move>, urls: Table<nat>, respond: Respond)
    ensures Play(x, moves, urls, respond).ends == x.ends
    decreases |moves|
  {
    hide Step;
    if moves != [] {
      StepEnds(x, moves[0], urls, respond);
      PlayEnds(Step(x, moves[0], urls, respond), moves[1..], urls, respond);
    }
  }

  lemma StepEnds(x: Link, m: Move, urls: Table<nat>, respond: Respond)
    ensures Step(x, m, urls, respond).ends == x.ends
  {
    hide LibServer.Handle, Known, ReadRequest, WriteResponse, WriteRequest, FetchPayload, Target;
  }

  /** A connection whose announcements all find room: every request that reaches the server is answered if and
      only if its address leads to a handler and the sub-memory is not called 0. */
  lemma AnsweredIffMatched(start: Link, moves: seq<Move>, urls: Table<nat>, respond: Respond)
    requires start == Start(start.ends, start.bytes, start.beyond, start.table) && Own(start)
    requires 0 < |start.bytes| < SIZE_ERROR && RespondFits(respond, |start.bytes|) && Sorted(urls)
    requires forall i | 0 <= i < |moves| :: MoveFits(moves[i], |start.bytes|)
    requires NeverTurned(start, moves, urls, respond)
    ensures var x := Play(start, moves, urls, respond);
            Arriving(x) ==>
              && x.calls != []
              && var answered := start.ends.sub != 0 && Served(urls, Last(x).url);
                 && (answered <==> !Stranded(Play(x, [ServerTake, ServerAnswer], urls, respond)))
                 && (answered ==>
                       && !Play(x, ROUND, urls, respond).sent
                       && DeliversNext(x.delivered, Play(x, ROUND, urls, respond).delivered, Last(x), urls, respond))
  {
    hide Step, RespondFits, MoveFits, NeverTurned, Good, Known, HasPages, Target, Stranded, Own, Play, Sorted, Served,
         Answer, Delivers;
    StartGood(start, urls, respond);
    StartReady(start);
    AlwaysReady(start, moves, urls, respond);
    PlayGood(start, moves, urls, respond);
    PlayEnds(start, moves, urls, respond);
    var x := Play(start, moves, urls, respond);
    if Arriving(x) {
      TakenMessage(x, [], urls, respond);
      HandledFate(x, urls, respond);
      HandledPlay(x, urls, respond);
      ReadyKnown(x);
      GoodOwn(x, urls, respond);
      PagesUnlessZero(x);
      TargetLeast(urls, Last(x).url, 0);
      if Answerable(x, urls) {
        AnswerDelivers(Last(x), urls, respond, x.delivered, Play(x, ROUND, urls, respond).delivered);
      }
    }
  }

  lemma StartReady(x: Link)
    requires x == Start(x.ends, x.bytes, x.beyond, x.table)
    ensures Ready(x)
  {
    hide Known;
  }

  lemma ReadyKnown(x: Link)
    requires Ready(x) && Arriving(x)
    ensures Known(x)
  {
    hide Known;
  }

  // ---------- all failures happen ----------

  /** The client maps its memory and calls; the server reads the announcement and then the message. */
  function FirstCall(r: Request): seq<Move> {
    [Map, ServerTake, CallServer(r)]
  }

  lemma FirstCallArrives(start: Link, r: Request, urls: Table<nat>, respond: Respond)
    requires start == Start(start.ends, start.bytes, start.beyond, start.table) && Own(start)
    requires 0 < |start.bytes| < SIZE_ERROR && RespondFits(respond, |start.bytes|) && RequestFits(r, |start.bytes|)
    ensures var x := Play(start, FirstCall(r), urls, respond);
            && Good(x, urls, respond) && Arriving(x) && x.calls == [r] && x.delivered == [] && x.ends == start.ends
            && (Known(x) <==> Known(start) || HasRoom(start.table))
  {
    hide RespondFits, RequestFits, WriteRequest, Good, OwnTable, Listed, HasRoom, LibServer.Handle, Hello, MayMap;
    StartGood(start, urls, respond);
    PlayGood(start, FirstCall(r), urls, respond);
    PlayEnds(start, FirstCall(r), urls, respond);
    HelloOwn(start.ends, start.table);
    var x1 := Step(start, Map, urls, respond);
    var x2 := Step(x1, ServerTake, urls, respond);
    var x3 := Step(x2, CallServer(r), urls, respond);
    assert x1.toServer == [NEW_CONNECTION] && x2.toServer == [];
    assert x3.toServer == [NEW_MESSAGE];
    PlayThree(start, Map, ServerTake, CallServer(r), urls, respond);
  }

  lemma PlayThree(x: Link, m0: Move, m1: Move, m2: Move, urls: Table<nat>, respond: Respond)
    ensures Play(x, [m0, m1, m2], urls, respond) ==
            Step(Step(Step(x, m0, urls, respond), m1, urls, respond), m2, urls, respond)
  {
    hide Step;
    var x2 := Step(Step(x, m0, urls, respond), m1, urls, respond);
    assert [m0, m1, m2][1..] == [m1, m2] && [m1, m2][1..] == [m2] && [m2][1..] == [];
    assert Play(Step(x2, m2, urls, respond), [], urls, respond) == Step(x2, m2, urls, respond);
    assert Play(x2, [m2], urls, respond) == Step(x2, m2, urls, respond);
  }

  /** The first call of a new connection: answered with room in the table, a sub-memory that is not called 0 and a
      handler for the address, and lost for ever without any of them. So each failure happens to some client,
      whatever its request. */
  lemma FirstCallFate(start: Link, r: Request, moves: seq<Move>, urls: Table<nat>, respond: Respond)
    requires start == Start(start.ends, start.bytes, start.beyond, start.table) && Own(start) && !Known(start)
    requires 0 < |start.bytes| < SIZE_ERROR && RespondFits(respond, |start.bytes|) && RequestFits(r, |start.bytes|)
    requires Sorted(urls)
    ensures HasRoom(start.table) && start.ends.sub != 0 && Served(urls, r.url) ==>
              var x := Play(start, FirstCall(r) + ROUND, urls, respond);
              !x.sent && DeliversNext([], x.delivered, r, urls, respond)
    ensures !HasRoom(start.table) || start.ends.sub == 0 || !Served(urls, r.url) ==>
              var x := Play(start, FirstCall(r) + ([ServerTake, ServerAnswer] + moves), urls, respond);
              && Stranded(x) && x.calls == [r] && x.delivered == []
              && (x.dead <==> HasRoom(start.table) && start.ends.sub == 0)
  {
    hide RespondFits, RequestFits, Good, Own, Known, HasPages, HasRoom, Stranded, Play, Target, Step, Sorted, Served,
         Answer, Delivers;
    TargetLeast(urls, r.url, 0);
    FirstCallArrives(start, r, urls, respond);
    var x := Play(start, FirstCall(r), urls, respond);
    PlayMore(start, FirstCall(r), ROUND, urls, respond);
    PlayMore(start, FirstCall(r), [ServerTake, ServerAnswer] + moves, urls, respond);
    TakenMessage(x, moves, urls, respond);
    GoodOwn(x, urls, respond);
    if Known(x) {
      PagesUnlessZero(x);
      if Answerable(x, urls) {
        AnswerDelivers(r, urls, respond, [], Play(x, ROUND, urls, respond).delivered);
      }
    }
  }

  /** The table of a server with n other clients. */
  function Crowd(n: nat): (t: LibServer.Table)
    ensures |t.conns| == n && forall i | 0 <= i < n :: t.conns[i] == LibServer.ConnInfo(i, 100 + i)
    ensures forall u <- t.mappings :: 100 <= u < 100 + n
  {
    if n == 0 then LibServer.EMPTY
    else
      var t := Crowd(n - 1);
      LibServer.Table(t.conns + [LibServer.ConnInfo(n - 1, 99 + n)], t.mappings[99 + n := LibServer.Pages])
  }

  /** A request that one server answers is lost by a server without patterns, by a server without room, and over the
      sub-memory called 0, where it takes the server's process with it. */
  lemma FailuresHappen(bytes: string, beyond: char, r: Request, moves: seq<Move>, urls: Table<nat>, respond: Respond)
    requires 0 < |bytes| < SIZE_ERROR && RespondFits(respond, |bytes|) && RequestFits(r, |bytes|)
    requires Sorted(urls) && Served(urls, r.url)
    ensures var ends, lost := Ends(20, 21, 22), FirstCall(r) + ([ServerTake, ServerAnswer] + moves);
            var answered := Play(Start(ends, bytes, beyond, LibServer.EMPTY), FirstCall(r) + ROUND, urls, respond);
            var unmatched := Play(Start(ends, bytes, beyond, LibServer.EMPTY), lost, [], respond);
            var unknown := Play(Start(ends, bytes, beyond, Crowd(16)), lost, urls, respond);
            var refused := Play(Start(Ends(20, 21, 0), bytes, beyond, LibServer.EMPTY), lost, urls, respond);
            && !answered.sent && DeliversNext([], answered.delivered, r, urls, respond)
            && Stranded(unmatched) && unmatched.calls == [r] && unmatched.delivered == [] && !unmatched.dead
            && Stranded(unknown) && unknown.calls == [r] && unknown.delivered == [] && !unknown.dead
            && Stranded(refused) && refused.calls == [r] && refused.delivered == [] && refused.dead
  {
    hide RespondFits, RequestFits, Stranded, Play, Step, Own, Known, HasRoom, Crowd, Delivers;
    var free, crowded := Start(Ends(20, 21, 22), bytes, beyond, LibServer.EMPTY),
        Start(Ends(20, 21, 22), bytes, beyond, Crowd(16));
    EmptyFree(22);
    EmptyFree(0);
    CrowdFull(crowded);
    FirstCallFate(free, r, moves, urls, respond);
    FirstCallFate(free, r, moves, [], respond);
    FirstCallFate(crowded, r, moves, urls, respond);
    FirstCallFate(Start(Ends(20, 21, 0), bytes, beyond, LibServer.EMPTY), r, moves, urls, respond);
  }

  lemma EmptyFree(sub: int)
    requires 0 <= sub <= 22
    ensures forall x: Link | x.ends == Ends(20, 21, sub) && x.table == LibServer.EMPTY :: Own(x) && !Known(x)
    ensures HasRoom(LibServer.EMPTY)
  {
  }

  lemma CrowdFull(x: Link)
    requires x.ends == Ends(20, 21, 22) && x.table == Crowd(16)
    ensures Own(x) && !Known(x) && !HasRoom(x.table)
  {
    hide Crowd;
  }
}
