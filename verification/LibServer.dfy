/** The connection table that the library's Server object keeps for itself. */
module LibServer {
  import opened IdSpace
  import opened DriverModel

  const MAX_SERVERS_MAPPING: int := MAX_CLIENTS_PER_SERVER
  const MAX_SERVERS_CONNECTIONS: int := MAX_CLIENTS_PER_SERVER

  datatype ConnInfo = ConnInfo(clientId: int, subId: int)

  /** A Memory object: not mapped yet, or mapped, or believed to be mapped although the driver has refused. The
      library records a refused mapping like a successful one, with MAP_FAILED for the address. */
  datatype Mapping = Fresh | Pages | Failed

  /** The connections in the order they were added, and the Memory object of each sub-memory. */
  datatype Table = Table(conns: seq<ConnInfo>, mappings: map<int, Mapping>)

  const EMPTY: Table := Table([], map[])

  /** findConnection: the position of the first connection of a client, or |conns|. */
  function Find(conns: seq<ConnInfo>, clientId: int): (i: nat)
    ensures i <= |conns|
    ensures i < |conns| ==> conns[i].clientId == clientId
    ensures forall j | 0 <= j < i :: conns[j].clientId != clientId
  {
    if conns == [] || conns[0].clientId == clientId then 0 else 1 + Find(conns[1..], clientId)
  }

  function Erase<T>(s: seq<T>, i: nat): seq<T>
    requires i < |s|
  {
    s[..i] + s[i + 1..]
  }

  /** The memory object that try_emplace finds or makes. */
  function SlotOf(mappings: map<int, Mapping>, subId: int): Mapping {
    if subId in mappings then mappings[subId] else Fresh
  }

  /** Memory::mmap by server id, if the memory is not mapped yet; granted is the driver's answer. */
  function Remapped(slot: Mapping, id: int, subId: int, granted: bool): Mapping {
    if slot != Fresh || PackIds(id, subId) == WORD - EINVAL then slot else if granted then Pages else Failed
  }

  /** What a notification does to the table of server id; NEW_MESSAGE leaves it alone. granted is the driver's answer
      to the mmap call that an accepted connection brings about. */
  function Handle(t: Table, id: int, n: Notif, granted: bool): Table {
    if n.receiver != id || n.who != CLIENT || !ValidId(n.sender) || !ValidId(n.subId) then t
    else
      var i := Find(t.conns, n.sender);
      match n.kind
      case NEW_CONNECTION =>
        if i < |t.conns| || |t.conns| >= MAX_SERVERS_CONNECTIONS || |t.mappings| >= MAX_SERVERS_MAPPING then t
        else Table(t.conns + [ConnInfo(n.sender, n.subId)],
                   t.mappings[n.subId := Remapped(SlotOf(t.mappings, n.subId), id, n.subId, granted)])
      case NEW_MESSAGE => t
      case REMOTE_DISCONNECT =>
        if i == |t.conns| then t else Table(Erase(t.conns, i), t.mappings - {t.conns[i].subId})
  }

  predicate Lists(t: Table, clientId: int) {
    exists e <- t.conns :: e.clientId == clientId
  }

  /** The notification is from a client, for server id, and its identifiers are valid. */
  predicate Addressed(id: int, n: Notif) {
    n.receiver == id && n.who == CLIENT && ValidId(n.sender) && ValidId(n.subId)
  }

  /** The client is listed last, and its memory is mapped, unless it was, as the driver answers. */
  predicate Admitted(t: Table, t': Table, id: int, n: Notif, granted: bool) {
    && t'.conns == t.conns + [ConnInfo(n.sender, n.subId)]
    && n.subId in t'.mappings && t'.mappings - {n.subId} == t.mappings - {n.subId}
    && if n.subId in t.mappings && t.mappings[n.subId] != Fresh then t'.mappings[n.subId] == t.mappings[n.subId]
       else if !ValidId(id) || (id == 0xFFFF && n.subId == 0xFFEA) then t'.mappings[n.subId] == Fresh
       else t'.mappings[n.subId] == if granted then Pages else Failed
  }

  /** The first entry of the client is gone, and the memory that it names. */
  ghost predicate Dismissed(t: Table, t': Table, clientId: int) {
    exists i :: 0 <= i < |t.conns| && t.conns[i].clientId == clientId
                && (forall j | 0 <= j < i :: t.conns[j].clientId != clientId)
                && t'.conns == t.conns[..i] + t.conns[i + 1..] && t'.mappings == t.mappings - {t.conns[i].subId}
  }

  /** An announcement is accepted if and only if its client is not listed and both limits of sixteen allow it. */
  predicate Admits(t: Table, clientId: int) {
    !Lists(t, clientId) && |t.conns| < 16 && |t.mappings| < 16
  }

  lemma ListsMeans(t: Table, clientId: int)
    ensures Lists(t, clientId) <==> Find(t.conns, clientId) < |t.conns|
  {
    var i := Find(t.conns, clientId);
    assert i < |t.conns| ==> t.conns[i] in t.conns;
  }

  lemma AdmittedTable(t: Table, id: int, n: Notif, granted: bool)
    requires ValidId(n.subId)
    ensures Admitted(t, Table(t.conns + [ConnInfo(n.sender, n.subId)],
                              t.mappings[n.subId := Remapped(SlotOf(t.mappings, n.subId), id, n.subId, granted)]),
                     id, n, granted)
  {
    hide PackIds;
    PackErrorAmbiguity(id, n.subId);
  }

  /** What a notification does to the table, in terms of the clients that are listed. */
  lemma HandleOutcome(t: Table, id: int, n: Notif, granted: bool)
    ensures var t' := Handle(t, id, n, granted);
            var admitted := Addressed(id, n) && n.kind == NEW_CONNECTION && Admits(t, n.sender);
            var dismissed := Addressed(id, n) && n.kind == REMOTE_DISCONNECT && Lists(t, n.sender);
            && (admitted ==> Admitted(t, t', id, n, granted)) && (dismissed ==> Dismissed(t, t', n.sender))
            && (!admitted && !dismissed ==> t' == t)
  {
    hide Admitted, Lists, Remapped, ValidId;
    ListsMeans(t, n.sender);
    if Addressed(id, n) {
      assert ValidId(n.subId);
      AdmittedTable(t, id, n, granted);
    }
  }

  /** Processing a whole queue, while the driver maps these sub-memories for the server and no others. */
  function Drain(t: Table, id: int, q: seq<Notif>, granted: set<int>): Table
    decreases |q|
  {
    if q == [] then t else Drain(Handle(t, id, q[0], q[0].subId in granted), id, q[1..], granted)
  }

  /** The Server object, from the end of a successful init() on. */
  class Server {
    const id: int
    var connections: seq<ConnInfo>
    var mappings: map<int, Mapping>

    function Contents(): Table
      reads this
    {
      Table(connections, mappings)
    }

    constructor (id: int)
      ensures this.id == id && Contents() == EMPTY
    {
      this.id := id;
      connections := [];
      mappings := map[];
    }

    /** The index of the client's connection; the C++ nullptr is the length of the vector. */
    method FindConnection(clientId: int) returns (i: nat)
      ensures i == if ValidId(clientId) then Find(connections, clientId) else |connections|
    {
      if !ValidId(clientId) {
        return |connections|;
      }
      i := 0;
      while i < |connections|
        invariant i <= |connections|
        invariant Find(connections, clientId) == i + Find(connections[i..], clientId)
      {
        if connections[i].clientId == clientId {
          return;
        }
        assert connections[i..][1..] == connections[i + 1..];
        i := i + 1;
      }
    }

    /** False stands for the null sub-memory. The limit is tested before the identifier is looked up. */
    method FindOrCreateShm(subId: int) returns (ok: bool)
      modifies this`mappings
      ensures ok == (ValidId(subId) && |old(mappings)| < MAX_SERVERS_MAPPING)
      ensures mappings == if ok then old(mappings)[subId := SlotOf(old(mappings), subId)] else old(mappings)
    {
      if !ValidId(subId) || |mappings| >= MAX_SERVERS_MAPPING {
        return false;
      }
      if subId !in mappings {
        mappings := mappings[subId := Fresh];
      }
      ok := true;
    }

    /** Memory::mmap for one of the server's memories, which ends the same way in both cases. */
    method MapMemory(subId: int, granted: bool)
      requires subId in mappings
      modifies this`mappings
      ensures mappings == old(mappings)[subId := Remapped(Fresh, id, subId, granted)]
    {
      var packed := PackIds(id, subId);
      mappings := mappings[subId := Fresh];
      if packed == WORD - EINVAL {
        return;
      }
      mappings := mappings[subId := if granted then Pages else Failed];
    }

    /** The result of mapping is ignored: the connection is listed even if the driver refuses. */
    method AddConnection(clientId: int, subId: int, granted: bool) returns (ok: bool)
      modifies this
      ensures Contents() == Handle(old(Contents()), id, Notif(CLIENT, NEW_CONNECTION, subId, clientId, id), granted)
      ensures ok == (ValidId(clientId) && ValidId(subId) && |connections| == |old(connections)| + 1)
    {
      if !ValidId(subId) || !ValidId(clientId) {
        return false;
      }
      var i := FindConnection(clientId);
      if i < |connections| || |connections| >= MAX_SERVERS_CONNECTIONS {
        return false;
      }
      ok := FindOrCreateShm(subId);
      if ok {
        if mappings[subId] == Fresh {
          MapMemory(subId, granted);
        }
        connections := connections + [ConnInfo(clientId, subId)];
      }
    }

    /** i is the result of FindConnection; the vector is searched a second time by client. */
    method DisconnectFromClient(i: nat) returns (ok: bool)
      requires i <= |connections|
      requires i < |connections| ==> i == Find(connections, connections[i].clientId)
      modifies this
      ensures ok == (i < |old(connections)|)
      ensures Contents() == if ok then Table(Erase(old(connections), i),
              old(mappings) - {old(connections)[i].subId}) else old(Contents())
    {
      if i == |connections| {
        return false;
      }
      mappings := mappings - {connections[i].subId};
      var j := 0;
      while connections[j].clientId != connections[i].clientId
        invariant j <= i < |connections|
        invariant forall x | 0 <= x < j :: connections[x].clientId != connections[i].clientId
        invariant connections == old(connections) && mappings == old(mappings) - {connections[i].subId}
        decreases i - j
      {
        j := j + 1;
      }
      connections := connections[..j] + connections[j + 1..];
      ok := true;
    }

    method HandleNotification(n: Notif, granted: bool) returns (ok: bool)
      modifies this
      ensures Contents() == Handle(old(Contents()), id, n, granted)
      ensures ok <==> Addressed(id, n) && (n.kind == NEW_MESSAGE || Contents() != old(Contents()))
    {
      if n.receiver != id || n.who != CLIENT || !ValidId(n.sender) || !ValidId(n.subId) {
        return false;
      }
      match n.kind {
        case NEW_CONNECTION =>
          ok := AddConnection(n.sender, n.subId, granted);
        case NEW_MESSAGE =>
          ok := true;
        case REMOTE_DISCONNECT =>
          var i := FindConnection(n.sender);
          ok := DisconnectFromClient(i);
      }
    }
  }
}
