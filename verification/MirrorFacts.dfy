/** When the notifications waiting in a task's queue lead a server's table to what the driver has recorded.
    The driver's record is a set of facts, one for each connection whose client has mapped its memory. */
module MirrorFacts {
  import opened IdSpace
  import opened DriverModel
  import opened Mirror
  import Seqs

  /** One mapped connection: the server's task and the three identifiers. */
  datatype Fact = Fact(task: Ref, server: int, client: int, sub: int)

  type Facts = map<Ref, Fact>

  ghost predicate ValidFact(f: Fact) {
    ValidId(f.server) && ValidId(f.client) && ValidId(f.sub)
  }

  /** Identifiers are valid, and no two connections share a client or a sub-memory. */
  ghost predicate Unique(fs: Facts) {
    && (forall k <- fs :: ValidFact(fs[k]))
    && (forall k, k' | k in fs && k' in fs && fs[k].client == fs[k'].client :: k == k')
    && (forall k, k' | k in fs && k' in fs && fs[k].sub == fs[k'].sub :: k == k')
  }

  function Of(fs: Facts, t: Ref, id: int): set<Ref> {
    set k | k in fs && fs[k].task == t && fs[k].server == id
  }

  /** No server has more mapped connections than its table can hold. */
  ghost predicate Capped(fs: Facts) {
    forall t, id :: |Of(fs, t, id)| <= MAX_CLIENTS_PER_SERVER
  }

  ghost predicate HasFact(fs: Facts, f: Fact) {
    exists k :: k in fs && fs[k] == f
  }

  /** m holds exactly the pairs of server id of task t. */
  ghost predicate Agree(m: Pairs, fs: Facts, t: Ref, id: int) {
    && (forall k <- Of(fs, t, id) :: fs[k].client in m && m[fs[k].client] == fs[k].sub)
    && (forall c <- m :: HasFact(fs, Fact(t, id, c, m[c])))
  }

  /** Processing queue q from the table m on meets no obstacle and ends in agreement with the driver. */
  ghost predicate Leads(m: Pairs, q: seq<Notif>, fs: Facts, t: Ref, id: int) {
    GoodRun(m, id, q) && Agree(Fold(m, id, q), fs, t, id)
  }

  // ---------- agreement and the limits of the table ----------

  lemma AgreeSize(m: Pairs, fs: Facts, t: Ref, id: int)
    requires Unique(fs) && Agree(m, fs, t, id)
    ensures |m| == |Of(fs, t, id)|
  {
    var ks := Of(fs, t, id);
    var there := map k | k in ks :: fs[k].client;
    Seqs.InjectionBound(ks, m.Keys, there);
    var back := map c | c in m :: Some(fs, Fact(t, id, c, m[c]));
    Seqs.InjectionBound(m.Keys, ks, back);
    assert |m.Keys| == |m|;
  }

  ghost function Some(fs: Facts, f: Fact): (k: Ref)
    requires HasFact(fs, f)
    ensures k in fs && fs[k] == f
  {
    var k :| k in fs && fs[k] == f;
    k
  }

  lemma AgreeGood(m: Pairs, fs: Facts, t: Ref, id: int)
    requires Unique(fs) && Agree(m, fs, t, id) && |Of(fs, t, id)| <= MAX_CLIENTS_PER_SERVER
    ensures Good(m)
  {
    AgreeSize(m, fs, t, id);
    forall c, c' | c in m && c' in m && m[c] == m[c'] ensures c == c' {
      assert HasFact(fs, Fact(t, id, c, m[c])) && HasFact(fs, Fact(t, id, c', m[c']));
    }
  }

  // ---------- one more notification ----------

  ghost predicate Quiet(n: Notif) {
    && ValidId(n.sender) && ValidId(n.subId) && ValidId(n.receiver)
    && (n.who == SERVER || n.kind == NEW_MESSAGE)
  }

  lemma QuietLeads(m: Pairs, q: seq<Notif>, fs: Facts, t: Ref, id: int, n: Notif)
    requires Leads(m, q, fs, t, id) && Quiet(n)
    ensures Leads(m, q + [n], fs, t, id)
  {
    hide Good, Agree;
    GoodRunEnd(m, id, q);
    GoodRunSnoc(m, id, q, n);
  }

  function Told(kind: Kind, f: Fact): Notif {
    Notif(CLIENT, kind, f.sub, f.client, f.server)
  }

  /** A client maps its memory, possibly not for the first time, and its server is told. */
  lemma NewLeads(m: Pairs, q: seq<Notif>, fs: Facts, t: Ref, id: int, k: Ref, f: Fact)
    requires Leads(m, q, fs, t, id) && Unique(fs[k := f]) && Capped(fs[k := f]) && (k in fs ==> fs[k] == f)
    ensures Leads(m, if t == f.task then q + [Told(NEW_CONNECTION, f)] else q, fs[k := f], t, id)
  {
    hide Unique, Capped, Agree, GoodRun;
    var m1 := Fold(m, id, q);
    var n := Told(NEW_CONNECTION, f);
    if t == f.task && id == f.server {
      NewAgree(m1, fs, k, f);
      CappedAt(fs[k := f], t, id);
      AgreeGood(m1[f.client := f.sub], fs[k := f], t, id);
      hide Good;
      assert Apply(m1, id, n) == m1[f.client := f.sub];
      GoodRunSnoc(m, id, q, n);
    } else {
      OtherAgree(m1, fs, t, id, k, f);
      if t == f.task {
        ValidAt(fs[k := f], k);
        GoodRunEnd(m, id, q);
        hide Good;
        GoodRunSnoc(m, id, q, n);
      }
    }
  }

  lemma CappedAt(fs: Facts, t: Ref, id: int)
    requires Capped(fs)
    ensures |Of(fs, t, id)| <= MAX_CLIENTS_PER_SERVER
  {
  }

  lemma ValidAt(fs: Facts, k: Ref)
    requires Unique(fs) && k in fs
    ensures ValidFact(fs[k])
  {
  }

  lemma NewAgree(m: Pairs, fs: Facts, k: Ref, f: Fact)
    requires Agree(m, fs, f.task, f.server) && Unique(fs[k := f]) && (k in fs ==> fs[k] == f)
    ensures Agree(m[f.client := f.sub], fs[k := f], f.task, f.server)
    ensures f.client in m ==> m[f.client] == f.sub
    ensures ValidFact(f)
  {
    var fs' := fs[k := f];
    assert fs'[k] == f;
    forall x <- fs ensures x in fs' && fs'[x] == fs[x] {
    }
    if f.client in m {
      var x :| x in fs && fs[x] == Fact(f.task, f.server, f.client, m[f.client]);
      assert fs'[x].client == fs'[k].client;
    }
    var m' := m[f.client := f.sub];
    forall c <- m' ensures HasFact(fs', Fact(f.task, f.server, c, m'[c])) {
      if c != f.client {
        var x :| x in fs && fs[x] == Fact(f.task, f.server, c, m[c]);
        assert x in fs' && fs'[x] == fs[x];
      }
    }
  }

  lemma OtherAgree(m: Pairs, fs: Facts, t: Ref, id: int, k: Ref, f: Fact)
    requires Agree(m, fs, t, id) && (t != f.task || id != f.server) && (k in fs ==> fs[k] == f)
    ensures Agree(m, fs[k := f], t, id)
  {
    var fs' := fs[k := f];
    forall c <- m ensures HasFact(fs', Fact(t, id, c, m[c])) {
      var x :| x in fs && fs[x] == Fact(t, id, c, m[c]);
      assert x in fs' && fs'[x] == fs[x];
    }
  }

  /** A connection goes, mapped or not, and its server is told. The same notification may come again. */
  lemma CutLeads(m: Pairs, q: seq<Notif>, fs: Facts, t: Ref, id: int, k: Ref, f: Fact)
    requires Leads(m, q, fs, t, id) && ValidFact(f) && Alone(fs, k, f)
    ensures Leads(m, if t == f.task then q + [Told(REMOTE_DISCONNECT, f)] else q, fs - {k}, t, id)
  {
    var m1 := Fold(m, id, q);
    var n := Told(REMOTE_DISCONNECT, f);
    CutAgree(m1, fs, t, id, k, f);
    if t == f.task {
      hide Agree, GoodRun;
      GoodRunEnd(m, id, q);
      assert SubMap(Apply(m1, id, n), m1);
      SubGood(Apply(m1, id, n), m1);
      hide Good;
      GoodRunSnoc(m, id, q, n);
    }
  }

  /** No connection but k has the client of f, and k, if it is mapped, is described by f. */
  ghost predicate Alone(fs: Facts, k: Ref, f: Fact) {
    && (k in fs ==> fs[k] == f)
    && (forall x <- fs :: x != k ==> fs[x].client != f.client)
  }

  lemma CutAgree(m: Pairs, fs: Facts, t: Ref, id: int, k: Ref, f: Fact)
    requires Agree(m, fs, t, id) && Alone(fs, k, f)
    ensures Agree(if t == f.task && id == f.server then m - {f.client} else m, fs - {k}, t, id)
  {
    var m' := if t == f.task && id == f.server then m - {f.client} else m;
    var fs' := fs - {k};
    forall c <- m' ensures HasFact(fs', Fact(t, id, c, m'[c])) {
      var x :| x in fs && fs[x] == Fact(t, id, c, m[c]);
      assert x != k;
      assert x in fs' && fs'[x] == fs[x];
    }
    forall x <- Of(fs', t, id) ensures fs'[x].client in m' && m'[fs'[x].client] == fs'[x].sub {
      assert x in Of(fs, t, id);
    }
  }

  // ---------- notifications leave the queue, tables come and go ----------

  lemma PopLeads(m: Pairs, q: seq<Notif>, fs: Facts, t: Ref, id: int)
    requires Leads(m, q, fs, t, id) && q != []
    ensures Leads(Apply(m, id, q[0]), q[1..], fs, t, id) && Consistent(m, id, q[0]) && Good(Apply(m, id, q[0]))
  {
    hide Agree, Good, Consistent, Apply;
    GoodRunStep(m, id, q);
  }

  /** A table of a server without connections may be replaced by any part of it. */
  lemma Rebase(m: Pairs, m': Pairs, q: seq<Notif>, fs: Facts, t: Ref, id: int)
    requires Leads(m, q, fs, t, id) && Of(fs, t, id) == {} && SubMap(m', m)
    ensures Leads(m', q, fs, t, id)
  {
    hide GoodRun;
    SubRun(m', m, id, q);
    AgreeKeys(Fold(m, id, q), fs, t, id);
    NoKeys(Fold(m', id, q), Fold(m, id, q));
  }

  lemma NoKeys(m: Pairs, m': Pairs)
    requires SubMap(m, m') && m'.Keys == {}
    ensures m == map[] && m' == map[]
  {
    assert forall c :: c in m ==> c in m'.Keys;
  }

  lemma AgreeKeys(m: Pairs, fs: Facts, t: Ref, id: int)
    requires Agree(m, fs, t, id)
    ensures m.Keys == set k | k in Of(fs, t, id) :: fs[k].client
  {
    forall c <- m ensures exists k :: k in Of(fs, t, id) && fs[k].client == c {
      var k :| k in fs && fs[k] == Fact(t, id, c, m[c]);
      assert k in Of(fs, t, id);
    }
  }
}
