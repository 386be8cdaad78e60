/** The library objects that take part in an exchange, proved to make the moves of Exchange. */
module LibExchange {
  import opened Options
  import opened DriverModel
  import opened Framing
  import opened Routing
  import opened Exchange
  import FramingViews
  import Urls
  import LibServer
  import IdSpace
  import FramingLaws

  function Bytes(mem: FramingViews.Memory): string
    reads mem, mem.data
  {
    mem.data[..]
  }

  /** A region that a view can be laid over. */
  predicate Usable(mem: FramingViews.Memory)
    reads mem
  {
    mem.mapped && 0 < mem.data.Length < SIZE_ERROR
  }

  /** The client's side, in non-blocking mode. */
  class Client {
    const mem: FramingViews.Memory
    var isConnected: bool
    var isRequestSent: bool
    var callback: Option<nat>

    constructor (mem: FramingViews.Memory)
      ensures this.mem == mem && !isConnected && !isRequestSent && callback == None
    {
      this.mem := mem;
      isConnected, isRequestSent, callback := false, false, None;
    }

    /** The end of connect(), once the driver has mapped the memory. */
    method Connect()
      requires mem.mapped
      modifies this`isConnected
      ensures isConnected
    {
      isConnected := true;
    }

    /** payload is what the application's output callback sets; ioctlFails says how the driver takes it. */
    method Call(url: string, payload: string, responseCallback: nat, ioctlFails: bool) returns (ok: bool)
      requires 0 < mem.data.Length < SIZE_ERROR
      modifies this, mem.data
      ensures isConnected == old(isConnected)
      ensures !old(isConnected) || !mem.mapped || old(isRequestSent) ==>
                !ok && Bytes(mem) == old(Bytes(mem)) && isRequestSent == old(isRequestSent) && callback == old(callback)
      ensures old(isConnected) && mem.mapped && !old(isRequestSent) ==>
                && ok == isRequestSent == !ioctlFails
                && Bytes(mem) == WriteRequest(old(Bytes(mem)), mem.beyond, Request(url, payload, responseCallback))
                && callback == if ok then Some(responseCallback) else old(callback)
    {
      if !isConnected || !mem.mapped {
        return false;
      }
      if isRequestSent {
        return false;
      }
      var wb := new FramingViews.WriteBufferView(mem);
      var written := wb.AddHeader(url);
      written := wb.SetPayload(payload);
      written := wb.FinalizePayload();
      if ioctlFails {
        isRequestSent := false;
      } else {
        isRequestSent := true;
        callback := Some(responseCallback);
      }
      ok := isRequestSent;
    }

    /** The callback that is run and the payload that it finds. Nothing happens without a connection. */
    method DispatchNewMessage() returns (run: Option<(nat, Fetch)>)
      modifies this
      ensures isConnected == old(isConnected)
      ensures !isConnected || !mem.mapped ==>
                isRequestSent == old(isRequestSent) && callback == old(callback) && run == None
      ensures isConnected && mem.mapped ==>
                && !isRequestSent && callback == None
                && run == if old(callback).Some? then Some((old(callback).value,
                     FetchPayload(View(Bytes(mem), mem.beyond)))) else None
    {
      run := None;
      if !isConnected || !mem.mapped {
        return;
      }
      if callback.Some? {
        var rb := new FramingViews.ReadBufferView(mem);
        var payload := rb.GetPayload();
        run := Some((callback.value, payload));
        callback := None;
      }
      isRequestSent := false;
    }
  }

  /** The server's reaction to a message over a connection that it has in its table. slot is the entry's memory object
      and mem the pages behind it; reading a memory whose mapping was refused follows MAP_FAILED. */
  method DispatchNewMessage(mem: FramingViews.Memory, slot: LibServer.Mapping, router: Router<nat>, respond: Respond)
    returns (answered: bool, crashed: bool)
    requires 0 < mem.data.Length < SIZE_ERROR && (slot == LibServer.Pages ==> mem.mapped) && Sorted(router.urls)
    modifies mem.data
    ensures crashed == (slot == LibServer.Failed)
    ensures var request := ReadRequest(old(Bytes(mem)), mem.beyond);
            && answered == (slot == LibServer.Pages && request.Some? && Served(router.urls, request.value.0))
            && (!answered ==> Bytes(mem) == old(Bytes(mem)))
            && (answered ==> exists text :: Response(router.urls, respond, request.value.0, request.value.1, text)
                               && Bytes(mem) == WriteResponse(old(Bytes(mem)), mem.beyond, text))
  {
    hide Framing.GetPayload, Framing.GetHeader, SkipHeaders, Sorted, LeastMatch, Matches;
    answered, crashed := false, slot == LibServer.Failed;
    if slot != LibServer.Pages {
      return;
    }
    var rb := new FramingViews.ReadBufferView(mem);
    var url := rb.GetHeader();
    if !url.Got? {
      return;
    }
    var address := Urls.Subdivide(url.text, Urls.ProcessToken);
    if address.None? {
      return;
    }
    HandlerFound(router.urls, url.text, address.value);
    var found := router.FindCallback(address.value);
    if found.None? {
      return;
    }
    var payload := rb.GetPayload();
    var wb := new FramingViews.WriteBufferView(mem);
    var text := respond(found.value.1, address.value, payload);
    var written := wb.SetPayload(text);
    written := wb.FinalizePayload();
    assert Response(router.urls, respond, url.text, payload, text);
    answered := true;
  }

  lemma HandlerFound(urls: Table<nat>, url: string, address: Address)
    requires Sorted(urls) && Urls.Tokens(url) == Some(address)
    ensures Route(urls, address).Some? <==> Served(urls, url)
    ensures Route(urls, address).Some? ==> LeastMatch(urls, address, Route(urls, address).value)
  {
    hide Sorted, Matches, Route;
    RouteChoosesLeast(urls, address);
  }

  /** The response that is written is the one that the exchange writes. */
  lemma ResponseWritten(urls: Table<nat>, respond: Respond, x: Link, bytes: string)
    requires Sorted(urls) && ReadRequest(x.bytes, x.beyond).Some?
    requires var (url, payload) := ReadRequest(x.bytes, x.beyond).value;
             && Served(urls, url)
             && exists text ::
                  Response(urls, respond, url, payload, text) && bytes == WriteResponse(x.bytes, x.beyond, text)
    ensures Responded(x, urls, respond) == x.(bytes := bytes, toClient := x.toClient + [NEW_MESSAGE])
  {
    hide Sorted, Target, ReadRequest, WriteResponse, Response, Served;
    var (url, payload) := ReadRequest(x.bytes, x.beyond).value;
    var text :| Response(urls, respond, url, payload, text) && bytes == WriteResponse(x.bytes, x.beyond, text);
    ResponseTarget(urls, respond, url, payload, text);
  }

  lemma NothingWritten(urls: Table<nat>, respond: Respond, x: Link)
    requires Sorted(urls)
    requires var r := ReadRequest(x.bytes, x.beyond); r.None? || !Served(urls, r.value.0)
    ensures Responded(x, urls, respond) == x
  {
    hide Sorted, Target, ReadRequest, WriteResponse, Served;
    var r := ReadRequest(x.bytes, x.beyond);
    if r.Some? {
      TargetLeast(urls, r.value.0, 0);
    }
  }

  /** The objects of both libraries that one connection ties together. The two mappings of the shared pages are one
      memory object; client.isConnected stands for the client's mapping. The queues hold what the driver has still
      to hand over. */
  class Session {
    const ends: Ends
    const mem: FramingViews.Memory
    const client: Client
    const server: LibServer.Server
    const router: Router<nat>
    const respond: Respond
    var toServer: seq<Kind>
    var toClient: seq<Kind>
    var serverBusy: bool
    var dead: bool
    var clientBusy: bool
    var calls: seq<Request>
    var delivered: seq<(nat, Fetch)>

    ghost function Abs(): Link
      reads this, mem, mem.data, client, server
    {
      Link(ends, mem.data[..], mem.beyond, client.isConnected, toServer, toClient, server.Contents(), serverBusy,
          dead, clientBusy,
           client.isRequestSent, client.callback, calls, delivered)
    }

    ghost predicate Valid()
      reads this, mem, mem.data, client, server, router
    {
      && client.mem == mem && server.id == ends.server && mem.mapped
      && Good(Abs(), router.urls, respond) && Sorted(router.urls)
    }

    constructor (ends: Ends, mem: FramingViews.Memory, server: LibServer.Server, router: Router<nat>, respond: Respond)
      requires Usable(mem) && server.id == ends.server && RespondFits(respond, mem.data.Length) && Sorted(router.urls)
      requires Own(Start(ends, Bytes(mem), mem.beyond, server.Contents()))
      ensures Valid() && Abs() == Start(ends, Bytes(mem), mem.beyond, server.Contents())
      ensures this.mem == mem && this.server == server && this.router == router && this.respond == respond
      ensures fresh(client)
    {
      this.ends, this.mem, this.server, this.router, this.respond := ends, mem, server, router, respond;
      client := new Client(mem);
      toServer, toClient, serverBusy, dead, clientBusy, calls, delivered := [], [], false, false, false, [], [];
      new;
      StartGood(Abs(), router.urls, respond);
    }

    method MapMemory()
      requires Valid()
      modifies this`toServer, client`isConnected
      ensures Valid() && Abs() == Step(old(Abs()), Map, router.urls, respond)
    {
      StepGood(Abs(), Map, router.urls, respond);
      client.Connect();
      toServer := toServer + [NEW_CONNECTION];
    }

    method Call(r: Request) returns (ok: bool)
      requires Valid() && RequestFits(r, mem.data.Length)
      modifies this`toServer, this`calls, client, mem.data
      ensures Valid() && Abs() == Step(old(Abs()), CallServer(r), router.urls, respond)
      ensures ok == (old(client.isConnected) && !old(client.isRequestSent))
    {
      hide Good, WriteRequest, RequestFits;
      GoodSize(Abs(), router.urls, respond);
      StepGood(Abs(), CallServer(r), router.urls, respond);
      ok := client.Call(r.url, r.payload, r.callback, false);
      if ok {
        toServer := toServer + [NEW_MESSAGE];
        calls := calls + [r];
      }
    }

    method ServerTake()
      requires Valid()
      modifies this`toServer, this`serverBusy, server
      ensures Valid() && Abs() == Step(old(Abs()), Exchange.ServerTake, router.urls, respond)
    {
      hide Good, LibServer.Handle;
      StepGood(Abs(), Exchange.ServerTake, router.urls, respond);
      GoodIds(Abs(), router.urls, respond);
      if dead || toServer == [] || serverBusy {
        return;
      }
      var kind := toServer[0];
      toServer := toServer[1..];
      if kind == NEW_CONNECTION {
        var added := server.HandleNotification(Hello(ends), MayMap(ends));
      } else {
        var i := server.FindConnection(ends.client);
        serverBusy := i < |server.connections| && server.connections[i].subId == ends.sub;
      }
    }

    method ServerOther(n: Notif, granted: bool)
      requires Valid() && Foreign(ends, n)
      modifies server
      ensures Valid() && Abs() == Step(old(Abs()), Exchange.ServerOther(n, granted), router.urls, respond)
    {
      hide Good, LibServer.Handle;
      StepGood(Abs(), Exchange.ServerOther(n, granted), router.urls, respond);
      if dead {
        return;
      }
      var handled := server.HandleNotification(n, granted);
    }

    method ServerAnswer()
      requires Valid()
      modifies this`serverBusy, this`dead, this`toClient, mem.data
      ensures Valid() && Abs() == Step(old(Abs()), Exchange.ServerAnswer, router.urls, respond)
    {
      hide Good, ReadRequest, WriteResponse, Responded, Response, Served, Sorted, LibServer.SlotOf;
      GoodSize(Abs(), router.urls, respond);
      StepGood(Abs(), Exchange.ServerAnswer, router.urls, respond);
      if !serverBusy {
        return;
      }
      serverBusy := false;
      ghost var x := Abs();
      var answered, crashed := DispatchNewMessage(mem, LibServer.SlotOf(server.mappings, ends.sub), router, respond);
      dead := dead || crashed;
      if answered {
        toClient := toClient + [NEW_MESSAGE];
        ResponseWritten(router.urls, respond, x, Bytes(mem));
      } else if LibServer.SlotOf(server.mappings, ends.sub) == LibServer.Pages {
        NothingWritten(router.urls, respond, x);
      }
    }

    method ClientTake()
      requires Valid()
      modifies this`toClient, this`clientBusy
      ensures Valid() && Abs() == Step(old(Abs()), Exchange.ClientTake, router.urls, respond)
    {
      hide Good;
      StepGood(Abs(), Exchange.ClientTake, router.urls, respond);
      if toClient == [] || clientBusy {
        return;
      }
      toClient := toClient[1..];
      clientBusy := true;
    }

    method ClientDeliver()
      requires Valid()
      modifies this`clientBusy, this`delivered, client
      ensures Valid() && Abs() == Step(old(Abs()), Exchange.ClientDeliver, router.urls, respond)
    {
      hide Good, FetchPayload;
      StepGood(Abs(), Exchange.ClientDeliver, router.urls, respond);
      if !clientBusy {
        return;
      }
      BusyMapped(Abs(), router.urls, respond);
      clientBusy := false;
      var run := client.DispatchNewMessage();
      if run.Some? {
        delivered := delivered + [run.value];
      }
    }
  }

  lemma GoodSize(x: Link, urls: Table<nat>, respond: Respond)
    requires Good(x, urls, respond)
    ensures 0 < |x.bytes| < SIZE_ERROR
  {
  }

  lemma GoodIds(x: Link, urls: Table<nat>, respond: Respond)
    requires Good(x, urls, respond)
    ensures IdSpace.ValidId(x.ends.client)
  {
  }

  lemma BusyMapped(x: Link, urls: Table<nat>, respond: Respond)
    requires Good(x, urls, respond) && x.clientBusy
    ensures x.mapped
  {
    hide FramingLaws.Encode, Answer, RequestFits, RespondFits, Own, Matched;
  }
}
