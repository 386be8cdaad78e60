/** Requests and responses over one connection: the client library, the server library with its table of
    connections, the shared memory and the notifications in between. The queues are the driver's, seen from this
    connection. */
module Exchange {
  import opened Options
  import opened DriverModel
  import opened Framing
  import opened FramingLaws
  import opened Urls
  import opened Routing
  import IdSpace
  import LibServer

  datatype Request = Request(url: string, payload: string, callback: nat)

  /** What the server answers to a request whose address leads to this handler. */
  type Respond = (nat, Address, Fetch) -> string

  /** The identifiers of the connection's client, server and sub-memory. */
  datatype Ends = Ends(client: int, server: int, sub: int)

  /** mapped says that the client has mapped its memory; table is the whole table of the server object; a side is
      busy between taking a notification and having dealt with it; dead says that the server's process has
      followed a bad address; sent and callback are the client's m_is_request_sent and m_callback. calls and
      delivered are the history of accepted calls and of callbacks run. */
  datatype Link = Link(
    ends: Ends,
    bytes: string,
    beyond: char,
    mapped: bool,
    toServer: seq<Kind>, toClient: seq<Kind>,
    table: LibServer.Table, serverBusy: bool, dead: bool, clientBusy: bool,
    sent: bool, callback: Option<nat>,
    calls: seq<Request>, delivered: seq<(nat, Fetch)>)

  function Start(ends: Ends, bytes: string, beyond: char, table: LibServer.Table): Link {
    Link(ends, bytes, beyond, false, [], [], table, false, false, false, false, None, [], [])
  }

  /** ServerOther is the server's reading of a notification from another of its clients, granted the driver's answer
      to the mmap call that it may lead to. */
  datatype Move =
    | Map
    | CallServer(request: Request)
    | ServerTake
    | ServerOther(notif: Notif, granted: bool)
    | ServerAnswer
    | ClientTake
    | ClientDeliver

  // ---------- the server's table ----------

  /** The notification by which the client makes itself known. */
  function Hello(ends: Ends): Notif {
    Notif(CLIENT, NEW_CONNECTION, ends.sub, ends.client, ends.server)
  }

  /** The driver's answer when the server asks for the memory of its connection, as long as the connection lives. */
  predicate MayMap(ends: Ends) {
    ends.sub != 0
  }

  predicate Listed(ends: Ends, t: LibServer.Table) {
    var i := LibServer.Find(t.conns, ends.client);
    i < |t.conns| && t.conns[i].subId == ends.sub
  }

  /** The server finds the connection in its table, with its memory. */
  predicate Known(x: Link) {
    Listed(x.ends, x.table)
  }

  /** The driver has mapped the connection's memory for the server. */
  predicate HasPages(x: Link) {
    LibServer.SlotOf(x.table.mappings, x.ends.sub) == LibServer.Pages
  }

  predicate HasRoom(t: LibServer.Table) {
    |t.conns| < LibServer.MAX_SERVERS_CONNECTIONS && |t.mappings| < LibServer.MAX_SERVERS_MAPPING
  }

  /** The notification is not for this server, or names neither the client nor the sub-memory of the connection. */
  predicate Foreign(ends: Ends, n: Notif) {
    n.who == CLIENT && n.receiver == ends.server ==> n.sender != ends.client && n.subId != ends.sub
  }

  /** The table's entry for the client, if there is one, is that of this connection, and so is the entry for the
      sub-memory, whose mapping the driver has granted or refused. */
  predicate OwnTable(ends: Ends, t: LibServer.Table) {
    && IdSpace.ValidId(ends.client) && IdSpace.ValidId(ends.server) && IdSpace.ValidId(ends.sub)
    && IdSpace.PackIds(ends.server, ends.sub) != IdSpace.WORD - IdSpace.EINVAL
    && (forall i | 0 <= i < |t.conns| :: t.conns[i].clientId == ends.client <==> t.conns[i].subId == ends.sub)
    && (ends.sub in t.mappings <==> LibServer.Find(t.conns, ends.client) < |t.conns|)
    && (ends.sub in t.mappings ==> t.mappings[ends.sub] == if MayMap(ends) then LibServer.Pages else LibServer.Failed)
  }

  predicate Own(x: Link) {
    OwnTable(x.ends, x.table)
  }

  /** A server that knows the connection has its memory unless the sub-memory is called 0. */
  lemma PagesUnlessZero(x: Link)
    requires Own(x) && Known(x)
    ensures HasPages(x) <==> x.ends.sub != 0
    ensures !HasPages(x) ==> LibServer.SlotOf(x.table.mappings, x.ends.sub) == LibServer.Failed
  {
    hide IdSpace.ValidId, IdSpace.PackIds, LibServer.Find;
  }

  // ---------- the moves ----------

  /** What call leaves in the memory: the address, the payload, the terminator. */
  function WriteRequest(bytes: string, beyond: char, r: Request): string {
    FinalizePayload(SetPayload(AddHeader(View(bytes, beyond), r.url).0, r.payload).0).0.bytes
  }

  /** What the server's output callback leaves in the memory, finished by dispatchNewMessage. */
  function WriteResponse(bytes: string, beyond: char, payload: string): string {
    FinalizePayload(SetPayload(View(bytes, beyond), payload).0).0.bytes
  }

  function FetchPayload(b: Buffer): Fetch {
    GetPayload(b).1
  }

  /** The address and the payload that the server reads. */
  function ReadRequest(bytes: string, beyond: char): Option<(string, Fetch)> {
    var (b, url) := GetHeader(View(bytes, beyond));
    if url.Got? then Some((url.text, FetchPayload(b))) else None
  }

  /** The handler that a request reaches; None if no pattern matches or the address cannot be read. */
  function Target(urls: Table<nat>, url: string): (handler: Option<nat>)
    ensures handler.Some? ==> Tokens(url).Some? && Route(urls, Tokens(url).value).Some?
  {
    match Tokens(url)
    case None => None
    case Some(address) =>
      match Route(urls, address)
      case None => None
      case Some(e) => Some(e.1)
  }

  /** The handler is that of the least pattern that matches, and there is none only if no pattern does. */
  lemma TargetLeast(urls: Table<nat>, url: string, h: nat)
    requires Sorted(urls)
    ensures Target(urls, url) == Some(h) <==>
              Tokens(url).Some? && exists e :: LeastMatch(urls, Tokens(url).value, e) && e.1 == h
    ensures Target(urls, url).Some? <==> Served(urls, url)
  {
    hide Sorted, Matches, Less, Route;
    if Tokens(url).Some? {
      RouteChoosesLeast(urls, Tokens(url).value);
    }
  }

  /** The address can be read and some pattern matches it. */
  ghost predicate Served(urls: Table<nat>, url: string) {
    Tokens(url).Some? && exists e <- urls :: Matches(Tokens(url).value, e.0)
  }

  /** What the handler of the least matching pattern responds to a request. */
  ghost predicate Response(urls: Table<nat>, respond: Respond, url: string, payload: Fetch, text: string) {
    && Tokens(url).Some?
    && exists e :: LeastMatch(urls, Tokens(url).value, e) && text == respond(e.1, Tokens(url).value, payload)
  }

  /** The callback of call r has been run on the response to r. */
  ghost predicate Delivers(r: Request, run: (nat, Fetch), urls: Table<nat>, respond: Respond) {
    run.0 == r.callback && run.1.Got? && Response(urls, respond, r.url, Got(r.payload), run.1.text)
  }

  /** One callback more has been run, that of call r on the response to r. */
  ghost predicate DeliversNext(before: seq<(nat, Fetch)>, after: seq<(nat, Fetch)>, r: Request, urls: Table<nat>,
                               respond: Respond) {
    |after| == |before| + 1 && before <= after && Delivers(r, after[|before|], urls, respond)
  }

  lemma ResponseTarget(urls: Table<nat>, respond: Respond, url: string, payload: Fetch, text: string)
    requires Sorted(urls)
    ensures Response(urls, respond, url, payload, text) <==>
              Target(urls, url).Some? && text == respond(Target(urls, url).value, Tokens(url).value, payload)
  {
    hide Sorted, Target, LeastMatch, Served;
    if Target(urls, url).Some? {
      TargetLeast(urls, url, Target(urls, url).value);
    }
    if Response(urls, respond, url, payload, text) {
      var e :| LeastMatch(urls, Tokens(url).value, e) && text == respond(e.1, Tokens(url).value, payload);
      TargetLeast(urls, url, e.1);
    }
  }

  function Step(x: Link, m: Move, urls: Table<nat>, respond: Respond): Link {
    match m
    case Map => x.(mapped := true, toServer := x.toServer + [NEW_CONNECTION])
    case CallServer(r) =>
      if !x.mapped || x.sent then x
      else x.(bytes := WriteRequest(x.bytes, x.beyond, r), toServer := x.toServer + [NEW_MESSAGE], sent := true,
              callback := Some(r.callback), calls := x.calls + [r])
    case ServerTake =>
      if x.dead || x.toServer == [] || x.serverBusy then x
      else if x.toServer[0] == NEW_CONNECTION then
        x.(toServer := x.toServer[1..],
           table := LibServer.Handle(x.table, x.ends.server, Hello(x.ends), MayMap(x.ends)))
      else x.(toServer := x.toServer[1..], serverBusy := Known(x))
    case ServerOther(n, granted) =>
      if x.dead || !Foreign(x.ends, n) then x else x.(table := LibServer.Handle(x.table, x.ends.server, n, granted))
    case ServerAnswer =>
      if !x.serverBusy then x else Answered(x, urls, respond)
    case ClientTake =>
      if x.toClient == [] || x.clientBusy then x else x.(toClient := x.toClient[1..], clientBusy := true)
    case ClientDeliver =>
      if !x.clientBusy then x
      else
        x.(clientBusy := false, sent := false, callback := None,
           delivered :=
             if x.callback.Some? then x.delivered + [(x.callback.value, FetchPayload(View(x.bytes, x.beyond)))]
             else x.delivered)
  }

  /** dispatchNewMessage of the server, from the entry found on: a mapping that was refused is followed all the same,
      and without a matching callback the client gets no answer. */
  function Answered(x: Link, urls: Table<nat>, respond: Respond): Link {
    var x1 := x.(serverBusy := false);
    match LibServer.SlotOf(x.table.mappings, x.ends.sub)
    case Failed => x1.(dead := true)
    case Fresh => x1
    case Pages => Responded(x1, urls, respond)
  }

  function Responded(x1: Link, urls: Table<nat>, respond: Respond): Link {
    match ReadRequest(x1.bytes, x1.beyond)
    case None => x1
    case Some((url, payload)) =>
      var target := Target(urls, url);
      if target.None? then x1
      else x1.(bytes := WriteResponse(x1.bytes, x1.beyond, respond(target.value, Tokens(url).value, payload)),
               toClient := x1.toClient + [NEW_MESSAGE])
  }

  // ---------- what is assumed of the application ----------

  predicate RequestFits(r: Request, capacity: nat) {
    Plain(r.url) && MEMORY_FINALIZER !in r.payload && |r.url| + |r.payload| + 2 <= capacity
  }

  ghost predicate RespondFits(respond: Respond, capacity: nat) {
    forall h, a, p :: MEMORY_FINALIZER !in respond(h, a, p) && |respond(h, a, p)| + 2 <= capacity
  }

  predicate MoveFits(m: Move, capacity: nat) {
    m.CallServer? ==> RequestFits(m.request, capacity)
  }

  // ---------- the memory between the moves ----------

  lemma FinishedBytes(b: Buffer, payload: string)
    requires InBounds(b) && b.mapped && !b.headersDone && !b.done && b.pos + |payload| + 2 <= |b.bytes|
    ensures FinalizePayload(SetPayload(b, payload).0).0.bytes ==
              b.bytes[..b.pos] + [MEMORY_DELIMITER] + payload + [MEMORY_FINALIZER] + b.bytes[b.pos + |payload| + 2..]
  {
    if payload == "" {
      var b1 := FinalizeHeader(b).0;
      assert SetPayload(b, payload).0 == b1;
      assert b1.bytes == b.bytes[..b.pos] + [MEMORY_DELIMITER] + b.bytes[b.pos + 1..];
    } else {
      PayloadAccepted(b, payload);
      PayloadBytes(b, payload);
      assert SetPayload(b, payload).1;
    }
  }

  lemma RequestBytes(bytes: string, beyond: char, r: Request)
    requires 0 < |bytes| < SIZE_ERROR && RequestFits(r, |bytes|)
    ensures var text := Encode([r.url], r.payload);
            |text| <= |bytes| && WriteRequest(bytes, beyond, r) == text + bytes[|text|..]
  {
    hide SetPayload, FinalizePayload, AddHeader, Plain;
    var b := View(bytes, beyond);
    FirstHeader(b, r.url);
    var b1 := AddHeader(b, r.url).0;
    FinishedBytes(b1, r.payload);
    assert b1.bytes[..b1.pos] == r.url;
    var text := Encode([r.url], r.payload);
    assert b1.bytes[b1.pos + |r.payload| + 2..] == bytes[|text|..];
  }

  lemma FirstHeader(b: Buffer, url: string)
    requires b == View(b.bytes, b.beyond) && |url| < |b.bytes| < SIZE_ERROR
    ensures AddHeader(b, url).0 == b.(bytes := url + b.bytes[|url|..], pos := |url|, started := true)
  {
    assert Line(false, [url]) == url by {
      assert [url][1..] == [];
    }
    AddHeaderPuts(b, url);
    assert b.bytes[..0] + url + b.bytes[0 + |url|..] == url + b.bytes[|url|..];
  }

  lemma ResponseBytes(bytes: string, beyond: char, payload: string)
    requires 0 < |bytes| < SIZE_ERROR && |payload| + 2 <= |bytes|
    ensures var text := Encode([], payload);
            |text| <= |bytes| && WriteResponse(bytes, beyond, payload) == text + bytes[|text|..]
  {
    FinishedBytes(View(bytes, beyond), payload);
    assert bytes[..0] + [MEMORY_DELIMITER] == "" + [MEMORY_DELIMITER];
  }

  lemma RequestRead(bytes: string, beyond: char, r: Request)
    requires 0 < |bytes| < SIZE_ERROR && RequestFits(r, |bytes|) && Encode([r.url], r.payload) <= bytes
    ensures ReadRequest(bytes, beyond) == Some((r.url, Got(r.payload)))
  {
    hide GetPayload, GetHeader;
    var b := View(bytes, beyond);
    EncodeNext([r.url], r.payload);
    assert bytes[0..] == bytes;
    ReadOneHeader(b, r.url, MEMORY_DELIMITER, r.payload + [MEMORY_FINALIZER]);
    ReadPayload(GetHeader(b).0, r.payload);
  }

  lemma ResponseRead(bytes: string, beyond: char, payload: string)
    requires 0 < |bytes| < SIZE_ERROR && MEMORY_FINALIZER !in payload && Encode([], payload) <= bytes
    ensures FetchPayload(View(bytes, beyond)) == Got(payload)
  {
    hide GetPayload;
    assert bytes[0..] == bytes;
    assert Encode([], payload) == "" + ([MEMORY_DELIMITER] + (payload + [MEMORY_FINALIZER]));
    SkipTo(View(bytes, beyond), "", payload);
  }

  // ---------- taking turns ----------

  function Messages(q: seq<Kind>): nat {
    if q == [] then 0 else (if q[0] == NEW_MESSAGE then 1 else 0) + Messages(q[1..])
  }

  lemma {:induction false} MessagesAdd(q: seq<Kind>, kind: Kind)
    ensures Messages(q + [kind]) == Messages(q) + (if kind == NEW_MESSAGE then 1 else 0)
  {
    if q == [] {
      assert [kind][1..] == [];
    } else {
      assert (q + [kind])[0] == q[0] && (q + [kind])[1..] == q[1..] + [kind];
      MessagesAdd(q[1..], kind);
    }
  }

  /** The number of messages on their way between the two sides or being dealt with. */
  function InFlight(x: Link): nat {
    Messages(x.toServer) + Messages(x.toClient) + (if x.serverBusy then 1 else 0) + (if x.clientBusy then 1 else 0)
  }

  /** What the server answers, if it answers at all. */
  function Answer(r: Request, urls: Table<nat>, respond: Respond): Option<string> {
    match Target(urls, r.url)
    case None => None
    case Some(handler) => Some(respond(handler, Tokens(r.url).value, Got(r.payload)))
  }

  /** The answer is the response of the least matching handler, and there is one exactly if a pattern matches. */
  lemma AnswerMeans(r: Request, urls: Table<nat>, respond: Respond)
    requires Sorted(urls)
    ensures Answer(r, urls, respond).Some? <==> Served(urls, r.url)
    ensures forall text :: Answer(r, urls, respond) == Some(text) <==>
              Response(urls, respond, r.url, Got(r.payload), text)
  {
    hide Sorted, Target, Response, Served;
    TargetLeast(urls, r.url, 0);
    forall text {
      ResponseTarget(urls, respond, r.url, Got(r.payload), text);
    }
  }

  lemma AnswerDelivers(r: Request, urls: Table<nat>, respond: Respond, before: seq<(nat, Fetch)>,
                       after: seq<(nat, Fetch)>)
    requires Sorted(urls) && Answer(r, urls, respond).Some?
    requires after == before + [(r.callback, Got(Answer(r, urls, respond).value))]
    ensures DeliversNext(before, after, r, urls, respond)
  {
    hide Sorted, Answer, Response;
    AnswerMeans(r, urls, respond);
  }

  function Last(x: Link): Request
    requires x.calls != []
  {
    x.calls[|x.calls| - 1]
  }

  /** The queues carry nothing but new connections and messages to the server and messages to the client. */
  ghost predicate Orderly(x: Link) {
    && (forall i | 0 <= i < |x.toServer| :: x.toServer[i] == NEW_CONNECTION || x.toServer[i] == NEW_MESSAGE)
    && (forall i | 0 <= i < |x.toClient| :: x.toClient[i] == NEW_MESSAGE)
    && 0 < |x.bytes| < SIZE_ERROR
    && (forall i | 0 <= i < |x.calls| :: RequestFits(x.calls[i], |x.bytes|))
  }

  /** Each callback that has run got the answer to the request it was passed with, in the order of the calls. */
  ghost predicate Matched(x: Link, urls: Table<nat>, respond: Respond) {
    && |x.delivered| <= |x.calls|
    && forall i | 0 <= i < |x.delivered| ::
         && Answer(x.calls[i], urls, respond).Some?
         && x.delivered[i] == (x.calls[i].callback, Got(Answer(x.calls[i], urls, respond).value))
  }

  /** At most one message is on its way, and while it is the memory holds exactly the request it announces or
      the response to that request. */
  ghost predicate Turn(x: Link, urls: Table<nat>, respond: Respond) {
    && InFlight(x) <= 1
    && (x.dead ==> x.sent && InFlight(x) == 0)
    && (x.serverBusy ==> Known(x))
    && (!x.sent ==> InFlight(x) == 0 && x.callback == None && |x.delivered| == |x.calls|)
    && (x.sent ==> x.mapped && |x.calls| == |x.delivered| + 1 && x.callback == Some(Last(x).callback))
    && (Messages(x.toServer) == 1 || x.serverBusy ==> Encode([Last(x).url], Last(x).payload) <= x.bytes)
    && (Messages(x.toClient) == 1 || x.clientBusy ==>
          Answer(Last(x), urls, respond).Some? && Encode([], Answer(Last(x), urls, respond).value) <= x.bytes)
  }

  ghost predicate Good(x: Link, urls: Table<nat>, respond: Respond) {
    Orderly(x) && Own(x) && Matched(x, urls, respond) && Turn(x, urls, respond) && RespondFits(respond, |x.bytes|)
  }

  lemma MapGood(x: Link, urls: Table<nat>, respond: Respond)
    requires Good(x, urls, respond)
    ensures Good(Step(x, Map, urls, respond), urls, respond)
  {
    hide Encode, Answer, RequestFits, RespondFits, Own, LibServer.Handle;
    OwnKept(x);
    MessagesAdd(x.toServer, NEW_CONNECTION);
  }

  lemma CallGood(x: Link, r: Request, urls: Table<nat>, respond: Respond)
    requires Good(x, urls, respond) && RequestFits(r, |x.bytes|)
    ensures Good(Step(x, CallServer(r), urls, respond), urls, respond)
  {
    hide Encode, Answer, WriteRequest, RequestFits, RespondFits, Own;
    OwnKept(x);
    if !x.sent {
      MessagesAdd(x.toServer, NEW_MESSAGE);
      RequestBytes(x.bytes, x.beyond, r);
    }
  }

  lemma ServerTakeGood(x: Link, urls: Table<nat>, respond: Respond)
    requires Good(x, urls, respond)
    ensures Good(Step(x, ServerTake, urls, respond), urls, respond)
  {
    hide Encode, Answer, RequestFits, RespondFits, Listed, OwnTable, LibServer.Handle, MayMap, Hello;
    HelloOwn(x.ends, x.table);
    OwnKept(x);
  }

  lemma OwnKept(x: Link)
    requires Own(x)
    ensures forall x': Link | x'.ends == x.ends && x'.table == x.table :: Own(x')
  {
  }

  lemma EntryFound(conns: seq<LibServer.ConnInfo>, i: nat)
    requires i < |conns|
    ensures LibServer.Find(conns, conns[i].clientId) <= i
  {
  }

  lemma ListedMeans(ends: Ends, t: LibServer.Table)
    requires OwnTable(ends, t)
    ensures Listed(ends, t) <==> LibServer.Find(t.conns, ends.client) < |t.conns|
  {
    hide IdSpace.ValidId, IdSpace.PackIds;
  }

  /** The announcement is accepted exactly if it is not the first or finds room. */
  lemma HelloOwn(ends: Ends, t: LibServer.Table)
    requires OwnTable(ends, t)
    ensures var t' := LibServer.Handle(t, ends.server, Hello(ends), MayMap(ends));
            OwnTable(ends, t') && (Listed(ends, t') <==> Listed(ends, t) || HasRoom(t))
  {
    hide IdSpace.PackIds;
    var t' := LibServer.Handle(t, ends.server, Hello(ends), MayMap(ends));
    if t' != t {
      EntryFound(t'.conns, |t.conns|);
    }
  }

  /** Whatever other clients do, the entry stays as it is. */
  lemma OtherOwn(ends: Ends, t: LibServer.Table, n: Notif, granted: bool)
    requires OwnTable(ends, t) && Foreign(ends, n)
    ensures var t' := LibServer.Handle(t, ends.server, n, granted);
            OwnTable(ends, t') && (Listed(ends, t') <==> Listed(ends, t))
  {
    hide IdSpace.ValidId, LibServer.Remapped, LibServer.SlotOf, LibServer.Erase, OwnTable, Listed;
    var t' := LibServer.Handle(t, ends.server, n, granted);
    if t' != t {
      var d := LibServer.Find(t.conns, n.sender);
      if n.kind == NEW_CONNECTION {
        OtherAdded(ends, t, n.sender, n.subId, t'.mappings[n.subId]);
      } else {
        OtherErased(ends, t, d);
      }
    }
  }

  lemma OtherAdded(ends: Ends, t: LibServer.Table, c: int, u: int, slot: LibServer.Mapping)
    requires OwnTable(ends, t) && c != ends.client && u != ends.sub
    ensures var t' := LibServer.Table(t.conns + [LibServer.ConnInfo(c, u)], t.mappings[u := slot]);
            OwnTable(ends, t') && (Listed(ends, t') <==> Listed(ends, t))
  {
    hide IdSpace.ValidId, IdSpace.PackIds;
    var i := LibServer.Find(t.conns, ends.client);
    var conns' := t.conns + [LibServer.ConnInfo(c, u)];
    if i < |t.conns| {
      EntryFound(conns', i);
    }
  }

  lemma OtherErased(ends: Ends, t: LibServer.Table, d: nat)
    requires OwnTable(ends, t) && d < |t.conns| && t.conns[d].clientId != ends.client
    ensures var t' := LibServer.Table(LibServer.Erase(t.conns, d), t.mappings - {t.conns[d].subId});
            OwnTable(ends, t') && (Listed(ends, t') <==> Listed(ends, t))
  {
    hide IdSpace.ValidId, IdSpace.PackIds;
    var i := LibServer.Find(t.conns, ends.client);
    var conns' := LibServer.Erase(t.conns, d);
    assert forall j | 0 <= j < |conns'| :: conns'[j] == t.conns[if j < d then j else j + 1];
    if i < |t.conns| {
      assert conns'[if i < d then i else i - 1] == t.conns[i];
      EntryFound(conns', if i < d then i else i - 1);
    }
  }

  lemma ServerOtherGood(x: Link, n: Notif, granted: bool, urls: Table<nat>, respond: Respond)
    requires Good(x, urls, respond)
    ensures Good(Step(x, ServerOther(n, granted), urls, respond), urls, respond)
  {
    hide Encode, Answer, RequestFits, RespondFits, OwnTable, Listed, LibServer.Handle, Foreign;
    if Foreign(x.ends, n) {
      OtherOwn(x.ends, x.table, n, granted);
    }
  }

  lemma ClientTakeGood(x: Link, urls: Table<nat>, respond: Respond)
    requires Good(x, urls, respond)
    ensures Good(Step(x, ClientTake, urls, respond), urls, respond)
  {
    hide Encode, Answer, RequestFits, RespondFits, Own, LibServer.Handle;
    OwnKept(x);
  }

  /** The server answers if and only if it has the memory and the request's address leads to a handler. Without the
      memory its process dies. */
  lemma AnswerGood(x: Link, urls: Table<nat>, respond: Respond)
    requires Good(x, urls, respond)
    ensures Good(Step(x, ServerAnswer, urls, respond), urls, respond)
    ensures x.serverBusy ==> x.calls != []
    ensures x.serverBusy ==>
              Step(x, ServerAnswer, urls, respond).toClient ==
              if HasPages(x) && Target(urls, Last(x).url).Some? then x.toClient + [NEW_MESSAGE] else x.toClient
    ensures Step(x, ServerAnswer, urls, respond).dead <==> x.dead || (x.serverBusy && !HasPages(x))
  {
    hide Encode, WriteResponse, ReadRequest, RequestFits, RespondFits, Target, Own, Known;
    OwnKept(x);
    if x.serverBusy {
      PagesUnlessZero(x);
    }
    if x.serverBusy && HasPages(x) {
      var r := Last(x);
      RequestRead(x.bytes, x.beyond, r);
      MessagesAdd(x.toClient, NEW_MESSAGE);
      if Target(urls, r.url).Some? {
        var payload := respond(Target(urls, r.url).value, Tokens(r.url).value, Got(r.payload));
        ResponseFits(respond, |x.bytes|, Target(urls, r.url).value, Tokens(r.url).value, Got(r.payload));
        ResponseBytes(x.bytes, x.beyond, payload);
      }
    }
  }

  lemma ResponseFits(respond: Respond, capacity: nat, h: nat, a: Address, p: Fetch)
    requires RespondFits(respond, capacity)
    ensures MEMORY_FINALIZER !in respond(h, a, p) && |respond(h, a, p)| + 2 <= capacity
  {
  }

  lemma DeliverGood(x: Link, urls: Table<nat>, respond: Respond)
    requires Good(x, urls, respond)
    ensures Good(Step(x, ClientDeliver, urls, respond), urls, respond)
  {
    hide Encode, FetchPayload, RequestFits, RespondFits, Target, Own;
    OwnKept(x);
    if x.clientBusy {
      var r := Last(x);
      if Target(urls, r.url).Some? {
        ResponseFits(respond, |x.bytes|, Target(urls, r.url).value, Tokens(r.url).value, Got(r.payload));
      }
      ResponseRead(x.bytes, x.beyond, Answer(r, urls, respond).value);
    }
  }

  lemma StepGood(x: Link, m: Move, urls: Table<nat>, respond: Respond)
    requires Good(x, urls, respond) && MoveFits(m, |x.bytes|)
    ensures Good(Step(x, m, urls, respond), urls, respond)
    ensures |Step(x, m, urls, respond).bytes| == |x.bytes|
  {
    hide Good, Step;
    StepSameSize(x, m, urls, respond);
    match m
    case Map => MapGood(x, urls, respond);
    case CallServer(r) => CallGood(x, r, urls, respond);
    case ServerTake => ServerTakeGood(x, urls, respond);
    case ServerOther(n, granted) => ServerOtherGood(x, n, granted, urls, respond);
    case ServerAnswer => AnswerGood(x, urls, respond);
    case ClientTake => ClientTakeGood(x, urls, respond);
    case ClientDeliver => DeliverGood(x, urls, respond);
  }

  lemma StepSameSize(x: Link, m: Move, urls: Table<nat>, respond: Respond)
    requires Good(x, urls, respond) && MoveFits(m, |x.bytes|)
    ensures |Step(x, m, urls, respond).bytes| == |x.bytes|
  {
    hide WriteRequest, WriteResponse, Encode, RespondFits, Matched, Turn;
    if m.CallServer? {
      RequestBytes(x.bytes, x.beyond, m.request);
    } else if m.ServerAnswer? && x.serverBusy && ReadRequest(x.bytes, x.beyond).Some? {
      var (url, payload) := ReadRequest(x.bytes, x.beyond).value;
      if Target(urls, url).Some? {
        ResponseFits(respond, |x.bytes|, Target(urls, url).value, Tokens(url).value, payload);
        ResponseBytes(x.bytes, x.beyond, respond(Target(urls, url).value, Tokens(url).value, payload));
      }
    }
  }

  // ---------- whole lives of a connection ----------

  function Play(x: Link, moves: seq<Move>, urls: Table<nat>, respond: Respond): Link
    decreases |moves|
  {
    if moves == [] then x else Play(Step(x, moves[0], urls, respond), moves[1..], urls, respond)
  }

  lemma {:induction false} PlayGood(x: Link, moves: seq<Move>, urls: Table<nat>, respond: Respond)
    requires Good(x, urls, respond) && forall i | 0 <= i < |moves| :: MoveFits(moves[i], |x.bytes|)
    ensures Good(Play(x, moves, urls, respond), urls, respond)
    decreases |moves|
  {
    hide Good, Step, MoveFits;
    if moves != [] {
      StepGood(x, moves[0], urls, respond);
      PlayGood(Step(x, moves[0], urls, respond), moves[1..], urls, respond);
    }
  }

  /** In every life of a connection that starts with empty queues, whatever is in the memory and whoever else is
      in the server's table: at most one message is on its way, and the callbacks that have run are those of the
      first calls, in order, each run once and with the response of the least matching handler to its own
      request. */
  lemma ExactlyOnce(start: Link, moves: seq<Move>, urls: Table<nat>, respond: Respond)
    requires start == Start(start.ends, start.bytes, start.beyond, start.table) && Own(start)
    requires 0 < |start.bytes| < SIZE_ERROR && RespondFits(respond, |start.bytes|) && Sorted(urls)
    requires forall i | 0 <= i < |moves| :: MoveFits(moves[i], |start.bytes|)
    ensures var x := Play(start, moves, urls, respond);
            && InFlight(x) <= 1
            && |x.calls| == |x.delivered| + (if x.sent then 1 else 0)
            && forall i | 0 <= i < |x.delivered| :: Delivers(x.calls[i], x.delivered[i], urls, respond)
  {
    hide Step, MoveFits, RespondFits, Own, Sorted, Answer, Response;
    StartGood(start, urls, respond);
    PlayGood(start, moves, urls, respond);
    var x := Play(start, moves, urls, respond);
    forall i | 0 <= i < |x.delivered| ensures Delivers(x.calls[i], x.delivered[i], urls, respond) {
      AnswerMeans(x.calls[i], urls, respond);
    }
  }

  lemma StartGood(x: Link, urls: Table<nat>, respond: Respond)
    requires x == Start(x.ends, x.bytes, x.beyond, x.table) && Own(x) && 0 < |x.bytes| < SIZE_ERROR
    requires RespondFits(respond, |x.bytes|)
    ensures Good(x, urls, respond)
  {
    hide RespondFits, Own;
  }

  /** While a side deals with a message, reading it from mapped memory finds what it looks for and follows no null
      pointer; the server reads from memory that is not mapped exactly if the sub-memory is called 0. */
  lemma ReadsAreSafe(x: Link, urls: Table<nat>, respond: Respond)
    requires Good(x, urls, respond)
    ensures x.serverBusy ==>
              && GetHeader(View(x.bytes, x.beyond)).1.Got?
              && GetPayload(GetHeader(View(x.bytes, x.beyond)).0).1.Got?
              && (HasPages(x) <==> x.ends.sub != 0)
    ensures x.clientBusy ==> GetPayload(View(x.bytes, x.beyond)).1.Got?
  {
    hide GetHeader, GetPayload, RespondFits, Own, Known, HasPages;
    var b := View(x.bytes, x.beyond);
    assert x.bytes[0..] == x.bytes;
    if x.serverBusy {
      var r := Last(x);
      EncodeNext([r.url], r.payload);
      ReadOneHeader(b, r.url, MEMORY_DELIMITER, r.payload + [MEMORY_FINALIZER]);
      ReadPayload(GetHeader(b).0, r.payload);
      PagesUnlessZero(x);
    } else if x.clientBusy {
      var r := Last(x);
      ResponseFits(respond, |x.bytes|, Target(urls, r.url).value, Tokens(r.url).value, Got(r.payload));
      var payload := Answer(r, urls, respond).value;
      assert Encode([], payload) == "" + ([MEMORY_DELIMITER] + (payload + [MEMORY_FINALIZER]));
      SkipTo(b, "", payload);
    }
  }
}
