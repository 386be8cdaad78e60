/** A sub-memory may have identifier 0, and then its server cannot map it. */
module DriverZero {
  import opened IdSpace
  import opened DriverModel
  import opened DriverInvariant
  import opened DriverCommands
  import opened MirrorDriver
  import Seqs
  import DriverPreservation
  import DriverSteps
  import DriverLinks
  import DriverChannels

  /** A server gets the memory of its connection mapped if and only if the memory's identifier is not 0. */
  lemma ServerMapsUnlessZero(s: State, k: Ref)
    requires DriverSteps.Reachable(s) && k in s.conns
    ensures Whole(s, k)
    ensures MmapStep(s, FactOf(s, k).server, FactOf(s, k).sub) == (s, if FactOf(s, k).sub == 0 then -EINVAL else 0)
  {
    hide Inv, DriverSteps.Reachable, EntryByMem;
    DriverSteps.ReachableInv(s);
    AllWhole(s);
    var r, id, u := s.conns[k].server, FactOf(s, k).server, FactOf(s, k).sub;
    DriverChannels.ConnOfBoth(s, k);
    DriverChannels.ServerFound(s, r);
    NotAClient(s, r);
    DriverChannels.EntryThere(s, k);
  }

  /** No client has the identifier of a server. */
  lemma NotAClient(s: State, r: Ref)
    requires Inv(s) && r in s.servers
    ensures ClientById(s, s.servers[r].id) == NULL
  {
    hide Inv;
    var c := ClientById(s, s.servers[r].id);
    if c != NULL {
      OwnersDiffer(s, c, r);
    }
  }

  lemma OwnersDiffer(s: State, c: Ref, r: Ref)
    requires Inv(s) && c in s.clients && r in s.servers
    ensures s.clients[c].id != s.servers[r].id
  {
    OwnersTell(s.ids, HoldersOf(s), OfClient(c), OfServer(r));
    hide Inv;
  }

  // ---------- it happens ----------

  /** The first server gives its identifier back before the first pool is made. */
  const COMMANDS: seq<Cmd> := [
    Open(7, 1),
    RegisterServer(1, "a", 1),
    RegisterServer(1, "b", 2),
    RegisterClient(1, 1),
    ServerUnregister(0),
    Connect(2, "b", 1, 1, 1, [1, 2, 3, 4])
  ]

  lemma FirstIds()
    ensures GenerateId({}) == 0 && GenerateId({0}) == 1 && GenerateId({0, 1}) == 2 && GenerateId({1, 2}) == 0
    ensures Taken({}) == {0} && Taken({0}) == {0, 1} && Taken({0, 1}) == {0, 1, 2}
  {
    assert LowestFree({0}, 0) == LowestFree({0}, 1);
    assert LowestFree({0, 1}, 0) == LowestFree({0, 1}, 1) == LowestFree({0, 1}, 2);
  }

  function S1(): State { AddTask(INITIAL, 1, 7) }
  function S2(): State { AddServer(S1(), 1, 1, "a") }
  function S3(): State { AddServer(S2(), 1, 2, "b") }
  function S4(): State { AddClient(S3(), 1, 1) }
  function S5(): State { RemoveServer(S4(), 1) }
  function S6(): State { ConnectTo(S5(), 1, 2, 1, 1, 1, [1, 2, 3, 4]) }

  lemma UpToServers()
    ensures CmdOk(INITIAL, COMMANDS[0]) && Step(INITIAL, COMMANDS[0]) == (S1(), 0)
    ensures CmdOk(S1(), COMMANDS[1]) && Step(S1(), COMMANDS[1]) == (S2(), 0)
    ensures CmdOk(S2(), COMMANDS[2]) && Step(S2(), COMMANDS[2]) == (S3(), 0)
  {
    hide GenerateId, Taken;
  }

  lemma ServersThen()
    ensures S3().servers == map[1 := Server(0, "a", 1, []), 2 := Server(1, "b", 1, [])]
    ensures S3().serverList == [1, 2] && S3().ids == {0, 1} && S3().clients == map[] && S3().clientList == []
    ensures S3().conns == map[] && S3().subs == map[] && S3().pools == map[] && S3().poolList == []
    ensures S3().entries == map[]
    ensures 1 in S3().tasks && !S3().tasks[1].monitor && S3().tasks[1].numClients == 0
  {
    hide GenerateId, Taken;
    FirstIds();
  }

  lemma UpToUnregister()
    ensures CmdOk(S3(), COMMANDS[3]) && Step(S3(), COMMANDS[3]) == (S4(), 0)
    ensures CmdOk(S4(), COMMANDS[4]) && Step(S4(), COMMANDS[4]) == (S5(), 0)
  {
    hide GenerateId, Taken, S3, Freed, Seqs.Remove;
    ServersThen();
    DriverLinks.NothingToClean(S4(), 1);
  }

  lemma BeforeConnect()
    ensures S5().servers == map[2 := Server(1, "b", 1, [])] && S5().serverList == [2] && S5().ids == {1, 2}
    ensures S5().clients == map[1 := Client(2, 1, NULL)] && S5().clientList == [1]
    ensures S5().conns == map[] && S5().subs == map[] && S5().pools == map[] && S5().poolList == []
    ensures S5().entries == map[]
  {
    hide GenerateId, Taken, S3;
    ServersThen();
    FirstIds();
    assert Seqs.Remove([1, 2], 1) == [2] by {
      assert [1, 2][1..] == [2] && [2][1..] == [];
    }
  }

  lemma UpToConnect()
    ensures CmdOk(S5(), COMMANDS[5]) && Step(S5(), COMMANDS[5]) == (S6(), 0)
  {
    hide ConnectTo, S5;
    BeforeConnect();
  }

  lemma ZeroTaken()
    ensures 1 in S6().conns && S6().conns[1].mem == 1 && 1 in S6().subs && S6().subs[1].id == 0
  {
    hide AddSubs, GenerateId, Taken, S5;
    BeforeConnect();
    FirstIds();
    var s, us := S5(), [1, 2, 3, 4];
    DriverSteps.NewPoolFree(s, 1, us);
    assert us[1..] == [2, 3, 4];
    FirstSub(s, us);
  }

  lemma FirstSub(s: State, us: seq<Ref>)
    requires us != [] && Seqs.Distinct(us) && forall u <- us :: u !in s.subs
    ensures us[0] in AddSubs(s, us).subs && AddSubs(s, us).subs[us[0]].id == GenerateId(s.ids)
    ensures DriverPreservation.OnlyPools(s, AddSubs(s, us))
  {
    hide GenerateId, Taken;
    assert us == [us[0]] + us[1..];
    Seqs.DistinctTail(us);
    DriverPreservation.AddSubsEffect(AddSub(s, us[0]), us[1..]);
  }

  /** A run of the driver in which a connection's memory has identifier 0 and its server's mmap is refused. */
  lemma ZeroHappens() returns (states: seq<State>)
    ensures Behavior(states, COMMANDS)
    ensures var s := states[|COMMANDS|];
            && 1 in s.conns && Whole(s, 1) && FactOf(s, 1).sub == 0
            && MmapStep(s, FactOf(s, 1).server, FactOf(s, 1).sub).1 == -EINVAL
  {
    hide Step, CmdOk, Inv, MmapStep, S1, S2, S3, S4, S5, S6;
    UpToServers();
    UpToUnregister();
    UpToConnect();
    ZeroTaken();
    states := [INITIAL, S1(), S2(), S3(), S4(), S5(), S6()];
    assert Behavior(states, COMMANDS);
    DriverSteps.RunReachable(states, COMMANDS, 6);
    ServerMapsUnlessZero(S6(), 1);
  }
}
