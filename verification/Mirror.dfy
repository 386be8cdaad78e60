/** A limit-free account of a server's connection table as a map, and when the real table agrees with it. */
module Mirror {
  import opened DriverModel
  import opened LibServer
  import Seqs
  import IdSpace

  /** From clients to sub-memories. */
  type Pairs = map<int, int>

  /** A notification's effect if the table had no limits and never met a stale entry. */
  function Apply(m: Pairs, id: int, n: Notif): Pairs {
    if n.receiver != id || n.who != CLIENT then m
    else match n.kind
      case NEW_CONNECTION => if n.sender in m then m else m[n.sender := n.subId]
      case NEW_MESSAGE => m
      case REMOTE_DISCONNECT => m - {n.sender}
  }

  function Fold(m: Pairs, id: int, q: seq<Notif>): Pairs
    decreases |q|
  {
    if q == [] then m else Fold(Apply(m, id, q[0]), id, q[1..])
  }

  /** The table can hold the pairs: within its limits and no sub-memory used twice. */
  ghost predicate Good(m: Pairs) {
    && |m| <= MAX_CLIENTS_PER_SERVER
    && forall c, c' | c in m && c' in m && m[c] == m[c'] :: c == c'
  }

  /** A notification with valid identifiers that repeats a connection, if at all, with the same sub-memory. */
  ghost predicate Consistent(m: Pairs, id: int, n: Notif) {
    && IdSpace.ValidId(n.sender) && IdSpace.ValidId(n.subId) && IdSpace.ValidId(n.receiver)
    && (n.receiver == id && n.who == CLIENT && n.kind == NEW_CONNECTION && n.sender in m ==> m[n.sender] == n.subId)
  }

  /** Starting from m, the whole queue can be processed without meeting a limit or an inconsistency. */
  ghost predicate GoodRun(m: Pairs, id: int, q: seq<Notif>)
    decreases |q|
  {
    Good(m) && (q == [] || (Consistent(m, id, q[0]) && GoodRun(Apply(m, id, q[0]), id, q[1..])))
  }

  // ---------- queues grow at the end ----------

  lemma {:induction false} GoodRunSnoc(m: Pairs, id: int, q: seq<Notif>, n: Notif)
    requires GoodRun(m, id, q)
    requires Consistent(Fold(m, id, q), id, n) && Good(Apply(Fold(m, id, q), id, n))
    ensures GoodRun(m, id, q + [n])
    ensures Fold(m, id, q + [n]) == Apply(Fold(m, id, q), id, n)
    decreases |q|
  {
    if q == [] {
      assert q + [n] == [n];
      assert [n][1..] == [];
    } else {
      assert (q + [n])[0] == q[0] && (q + [n])[1..] == q[1..] + [n];
      hide Good, Consistent, Apply;
      GoodRunSnoc(Apply(m, id, q[0]), id, q[1..], n);
    }
  }

  lemma {:induction false} GoodRunEnd(m: Pairs, id: int, q: seq<Notif>)
    requires GoodRun(m, id, q)
    ensures Good(Fold(m, id, q))
    decreases |q|
  {
    if q != [] {
      GoodRunEnd(Apply(m, id, q[0]), id, q[1..]);
    }
  }

  // ---------- starting from fewer pairs ----------

  ghost predicate SubMap(m: Pairs, m': Pairs) {
    forall c <- m :: c in m' && m[c] == m'[c]
  }

  lemma SubGood(m: Pairs, m': Pairs)
    requires SubMap(m, m') && Good(m')
    ensures Good(m)
  {
    assert forall c :: c in m ==> c in m';
    Seqs.SubsetSize(m.Keys, m'.Keys);
    assert |m.Keys| == |m| && |m'.Keys| == |m'|;
  }

  /** A queue that is fine for a table is fine for any part of that table, and leaves a part behind. */
  lemma {:induction false} SubRun(m: Pairs, m': Pairs, id: int, q: seq<Notif>)
    requires SubMap(m, m') && GoodRun(m', id, q)
    ensures GoodRun(m, id, q)
    ensures SubMap(Fold(m, id, q), Fold(m', id, q))
    decreases |q|
  {
    SubGood(m, m');
    if q != [] {
      assert SubMap(Apply(m, id, q[0]), Apply(m', id, q[0]));
      SubRun(Apply(m, id, q[0]), Apply(m', id, q[0]), id, q[1..]);
    }
  }

  // ---------- the real table ----------

  function PairsOf(conns: seq<ConnInfo>): Pairs {
    if conns == [] then map[] else PairsOf(conns[1..])[conns[0].clientId := conns[0].subId]
  }

  ghost predicate HasSub(conns: seq<ConnInfo>, u: int) {
    exists i :: 0 <= i < |conns| && conns[i].subId == u
  }

  ghost predicate UniqueClients(conns: seq<ConnInfo>) {
    forall i, j | 0 <= i < |conns| && 0 <= j < |conns| && conns[i].clientId == conns[j].clientId :: i == j
  }

  lemma FirstUnique(conns: seq<ConnInfo>)
    requires UniqueClients(conns) && conns != []
    ensures UniqueClients(conns[1..]) && forall x <- conns[1..] :: x.clientId != conns[0].clientId
  {
    assert forall i | 0 <= i < |conns[1..]| :: conns[1..][i] == conns[i + 1];
  }

  lemma {:induction false} PairsOfMeaning(conns: seq<ConnInfo>)
    requires UniqueClients(conns)
    ensures forall c, u :: ConnInfo(c, u) in conns <==> c in PairsOf(conns) && PairsOf(conns)[c] == u
    ensures forall c <- PairsOf(conns) :: ConnInfo(c, PairsOf(conns)[c]) in conns
    ensures |PairsOf(conns)| == |conns|
  {
    hide UniqueClients;
    if conns != [] {
      var rest := conns[1..];
      FirstUnique(conns);
      PairsOfMeaning(rest);
      assert conns == [conns[0]] + rest;
      assert forall c <- PairsOf(rest) :: c != conns[0].clientId by {
        assert forall c <- PairsOf(rest) :: ConnInfo(c, PairsOf(rest)[c]) in rest;
      }
    }
  }

  /** Each client and each sub-memory occurs once, and the mappings are those of the connections. */
  ghost predicate TableOk(t: Table) {
    && UniqueClients(t.conns)
    && UniqueSubs(t.conns)
    && (forall u :: u in t.mappings <==> HasSub(t.conns, u))
  }

  lemma EraseUnique(conns: seq<ConnInfo>, i: nat)
    requires UniqueClients(conns) && i < |conns|
    ensures UniqueClients(Erase(conns, i))
    ensures forall x :: x in Erase(conns, i) <==> x in conns && x.clientId != conns[i].clientId
  {
    var es := Erase(conns, i);
    assert forall j | 0 <= j < i :: es[j] == conns[j];
    assert forall j | i <= j < |es| :: es[j] == conns[j + 1];
    forall x | x in conns && x.clientId != conns[i].clientId ensures x in es {
      var j :| 0 <= j < |conns| && conns[j] == x;
      assert es[if j < i then j else j - 1] == x;
    }
  }

  lemma SamePairs(conns: seq<ConnInfo>, m: Pairs)
    requires UniqueClients(conns)
    requires forall c, u :: ConnInfo(c, u) in conns <==> c in m && m[c] == u
    ensures PairsOf(conns) == m
  {
    PairsOfMeaning(conns);
    var p := PairsOf(conns);
    assert forall c | c in p :: ConnInfo(c, p[c]) in conns;
    assert forall c | c in m :: ConnInfo(c, m[c]) in conns;
  }

  lemma FindMeans(conns: seq<ConnInfo>, c: int)
    requires UniqueClients(conns)
    ensures Find(conns, c) < |conns| <==> c in PairsOf(conns)
    ensures c in PairsOf(conns) ==> conns[Find(conns, c)] == ConnInfo(c, PairsOf(conns)[c])
  {
    PairsOfMeaning(conns);
    var i := Find(conns, c);
    if i < |conns| {
      assert conns[i] in conns;
      assert ConnInfo(c, conns[i].subId) in conns;
    } else {
      assert forall x <- conns :: x.clientId != c;
      assert forall d <- PairsOf(conns) :: d != c;
    }
  }

  // ---------- the real table follows the map ----------

  lemma TableSize(t: Table)
    requires TableOk(t)
    ensures |t.mappings| == |t.conns| == |PairsOf(t.conns)|
  {
    PairsOfMeaning(t.conns);
    var subs := seq(|t.conns|, i requires 0 <= i < |t.conns| => t.conns[i].subId);
    assert forall i | 0 <= i < |subs| :: subs[i] == t.conns[i].subId;
    forall u ensures u in subs <==> u in t.mappings {
      if u in t.mappings {
        var i :| 0 <= i < |t.conns| && t.conns[i].subId == u;
        assert subs[i] == u;
      }
      if u in subs {
        var i :| 0 <= i < |subs| && subs[i] == u;
        assert HasSub(t.conns, u);
      }
    }
    Seqs.ListsSize(subs, t.mappings.Keys);
    assert |t.mappings.Keys| == |t.mappings|;
  }

  lemma HandleAdd(t: Table, id: int, n: Notif, granted: bool)
    requires TableOk(t) && n.kind == NEW_CONNECTION && n.receiver == id && n.who == CLIENT
    requires Consistent(PairsOf(t.conns), id, n) && Good(Apply(PairsOf(t.conns), id, n))
    ensures TableOk(Handle(t, id, n, granted))
    ensures PairsOf(Handle(t, id, n, granted).conns) == Apply(PairsOf(t.conns), id, n)
  {
    hide Remapped, SlotOf;
    var m := PairsOf(t.conns);
    FindMeans(t.conns, n.sender);
    if n.sender !in m {
      TableSize(t);
      PairsOfMeaning(t.conns);
      var conns' := t.conns + [ConnInfo(n.sender, n.subId)];
      assert |m[n.sender := n.subId]| == |m| + 1;
      var slot := Remapped(SlotOf(t.mappings, n.subId), id, n.subId, granted);
      AddedConn(t, n.sender, n.subId, slot);
      SamePairs(conns', m[n.sender := n.subId]);
    }
  }

  lemma AddedConn(t: Table, c: int, u: int, slot: Mapping)
    requires TableOk(t) && c !in PairsOf(t.conns) && Good(PairsOf(t.conns)[c := u])
    ensures TableOk(Table(t.conns + [ConnInfo(c, u)], t.mappings[u := slot]))
    ensures forall c', u' :: ConnInfo(c', u') in t.conns + [ConnInfo(c, u)] <==>
              c' in PairsOf(t.conns)[c := u] && PairsOf(t.conns)[c := u][c'] == u'
  {
    hide HasSub;
    PairsOfMeaning(t.conns);
    var m, conns' := PairsOf(t.conns)[c := u], t.conns + [ConnInfo(c, u)];
    forall i | 0 <= i < |t.conns| ensures t.conns[i].clientId != c && t.conns[i].subId != u {
      assert ConnInfo(t.conns[i].clientId, t.conns[i].subId) in t.conns;
      assert m[t.conns[i].clientId] == t.conns[i].subId && m[c] == u;
    }
    forall x ensures x in t.mappings[u := slot] <==> HasSub(conns', x) {
      AddedSub(t.conns, c, u, x);
    }
  }

  lemma AddedSub(conns: seq<ConnInfo>, c: int, u: int, x: int)
    ensures HasSub(conns + [ConnInfo(c, u)], x) <==> HasSub(conns, x) || x == u
  {
    var conns' := conns + [ConnInfo(c, u)];
    assert conns'[|conns|] == ConnInfo(c, u);
    if HasSub(conns, x) {
      var i :| 0 <= i < |conns| && conns[i].subId == x;
      assert conns'[i].subId == x;
    }
  }

  lemma HandleRemove(t: Table, id: int, n: Notif, granted: bool)
    requires TableOk(t) && n.kind == REMOTE_DISCONNECT && n.receiver == id && n.who == CLIENT
    requires IdSpace.ValidId(n.sender) && IdSpace.ValidId(n.subId)
    ensures TableOk(Handle(t, id, n, granted))
    ensures PairsOf(Handle(t, id, n, granted).conns) == Apply(PairsOf(t.conns), id, n)
  {
    var m := PairsOf(t.conns);
    FindMeans(t.conns, n.sender);
    var i := Find(t.conns, n.sender);
    if i < |t.conns| {
      EraseUnique(t.conns, i);
      PairsOfMeaning(t.conns);
      SamePairs(Erase(t.conns, i), m - {n.sender});
      ErasedSubs(t, i);
    } else {
      assert m - {n.sender} == m;
    }
  }

  lemma ErasedAt(conns: seq<ConnInfo>, i: nat)
    requires i < |conns|
    ensures |Erase(conns, i)| == |conns| - 1
    ensures forall j | 0 <= j < |Erase(conns, i)| :: Erase(conns, i)[j] == conns[if j < i then j else j + 1]
    ensures forall j | 0 <= j < |conns| && j != i :: conns[j] == Erase(conns, i)[if j < i then j else j - 1]
  {
  }

  lemma ErasedHas(conns: seq<ConnInfo>, i: nat, u: int)
    requires i < |conns| && UniqueSubs(conns)
    ensures HasSub(Erase(conns, i), u) <==> HasSub(conns, u) && u != conns[i].subId
  {
    hide Erase;
    ErasedAt(conns, i);
    var es := Erase(conns, i);
    if HasSub(conns, u) && u != conns[i].subId {
      var j :| 0 <= j < |conns| && conns[j].subId == u;
      assert es[if j < i then j else j - 1].subId == u;
    }
    if HasSub(es, u) {
      var j :| 0 <= j < |es| && es[j].subId == u;
      assert conns[if j < i then j else j + 1].subId == u;
    }
  }

  ghost predicate UniqueSubs(conns: seq<ConnInfo>) {
    forall i, j | 0 <= i < |conns| && 0 <= j < |conns| && conns[i].subId == conns[j].subId :: i == j
  }

  lemma ErasedUniqueSubs(conns: seq<ConnInfo>, i: nat)
    requires UniqueSubs(conns) && i < |conns|
    ensures UniqueSubs(Erase(conns, i))
  {
    hide Erase;
    ErasedAt(conns, i);
  }

  lemma ErasedSubs(t: Table, i: nat)
    requires TableOk(t) && i < |t.conns|
    ensures TableOk(Table(Erase(t.conns, i), t.mappings - {t.conns[i].subId}))
  {
    hide Erase, HasSub, UniqueClients, UniqueSubs;
    EraseUnique(t.conns, i);
    ErasedUniqueSubs(t.conns, i);
    forall u ensures u in t.mappings - {t.conns[i].subId} <==> HasSub(Erase(t.conns, i), u) {
      ErasedHas(t.conns, i, u);
    }
  }

  /** One notification moves the real table and the map in step. */
  lemma HandleFollows(t: Table, id: int, n: Notif, granted: bool)
    requires TableOk(t) && Consistent(PairsOf(t.conns), id, n) && Good(Apply(PairsOf(t.conns), id, n))
    ensures TableOk(Handle(t, id, n, granted))
    ensures PairsOf(Handle(t, id, n, granted).conns) == Apply(PairsOf(t.conns), id, n)
  {
    if n.receiver == id && n.who == CLIENT {
      match n.kind
      case NEW_CONNECTION => HandleAdd(t, id, n, granted);
      case NEW_MESSAGE =>
      case REMOTE_DISCONNECT => HandleRemove(t, id, n, granted);
    }
  }

  /** So does a whole queue. */
  lemma {:induction false} DrainFollows(t: Table, id: int, q: seq<Notif>, granted: set<int>)
    requires TableOk(t) && GoodRun(PairsOf(t.conns), id, q)
    ensures TableOk(Drain(t, id, q, granted))
    ensures PairsOf(Drain(t, id, q, granted).conns) == Fold(PairsOf(t.conns), id, q)
    decreases |q|
  {
    if q != [] {
      hide TableOk, Good, Consistent, Apply, Handle;
      GoodRunStep(PairsOf(t.conns), id, q);
      HandleFollows(t, id, q[0], q[0].subId in granted);
      DrainFollows(Handle(t, id, q[0], q[0].subId in granted), id, q[1..], granted);
    }
  }

  lemma GoodRunStep(m: Pairs, id: int, q: seq<Notif>)
    requires GoodRun(m, id, q) && q != []
    ensures Consistent(m, id, q[0]) && Good(Apply(m, id, q[0])) && GoodRun(Apply(m, id, q[0]), id, q[1..])
  {
  }

  /** The table never grows past its limit, whatever arrives. */
  lemma {:induction false} DrainBounded(t: Table, id: int, q: seq<Notif>, granted: set<int>)
    requires |t.conns| <= MAX_SERVERS_CONNECTIONS
    ensures |Drain(t, id, q, granted).conns| <= MAX_SERVERS_CONNECTIONS
    decreases |q|
  {
    if q != [] {
      DrainBounded(Handle(t, id, q[0], q[0].subId in granted), id, q[1..], granted);
    }
  }
}
