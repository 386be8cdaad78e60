/** The driver's main guarantees, in every reachable state and spelled out. */
module DriverTheorems {
  import opened DriverModel
  import opened DriverInvariant
  import opened DriverSteps
  import Seqs
  import DriverCommands
  import DriverFacts
  import DriverTeardown
  import DriverClose
  import DriverLinks

  /** A connection object is in the global list exactly if it is live, and then its client and its sub-memory
      point to it, and it has exactly one entry, in its server's list. */
  lemma ConnectionIsLinked(s: State, k: Ref)
    requires Reachable(s)
    ensures k in s.connList <==> k in s.conns
    ensures k in s.conns ==>
              && s.conns[k].client in s.clients && s.clients[s.conns[k].client].conn == k
              && s.conns[k].mem in s.subs && s.subs[s.conns[k].mem].conn == k
              && s.conns[k].server in s.servers
              && (exists e :: e in s.servers[s.conns[k].server].entries && e in s.entries && s.entries[e] == k)
              && (forall e, e' | e in s.entries && e' in s.entries && s.entries[e] == k && s.entries[e'] == k ::
                   e == e')
  {
    hide Inv, Reachable;
    ReachableInv(s);
    ConnListExact(s, k);
    if k in s.conns {
      DriverFacts.ConnIntact(s, k);
      var e := EntryOf(s, k);
    }
  }

  lemma ConnListExact(s: State, k: Ref)
    requires Inv(s)
    ensures k in s.connList <==> k in s.conns
  {
    hide Linked, Listed, Owned, Pooled, Identified, Separate, Named, Seqs.Distinct;
  }

  lemma EntryOf(s: State, k: Ref) returns (e: Ref)
    requires Inv(s) && k in s.conns
    ensures s.conns[k].server in s.servers && e in s.servers[s.conns[k].server].entries && e in s.entries
    ensures s.entries[e] == k
    ensures forall e, e' | e in s.entries && e' in s.entries && s.entries[e] == k && s.entries[e'] == k :: e == e'
  {
    hide Linked, Owned, Pooled, Identified, Separate, Named, Enumerated;
    e := ListedOnce(s.conns, s.servers, s.entries, k);
  }

  lemma ListedOnce(conns: map<Ref, Conn>, servers: map<Ref, Server>, entries: map<Ref, Ref>, k: Ref) returns (e: Ref)
    requires Listed(conns, servers, entries) && k in conns
    ensures conns[k].server in servers && e in servers[conns[k].server].entries && e in entries && entries[e] == k
    ensures forall e, e' | e in entries && e' in entries && entries[e] == k && entries[e'] == k :: e == e'
  {
    hide Seqs.Distinct;
    assert HasEntry(entries, k);
    e :| e in entries && entries[e] == k;
  }

  /** Conversely every connection pointer of a client or a sub-memory and every entry of a server's list names a
      live connection that points back. */
  lemma PointersAreAnswered(s: State)
    requires Reachable(s)
    ensures forall c <- s.clients :: s.clients[c].conn != NULL ==>
            s.clients[c].conn in s.conns && s.conns[s.clients[c].conn].client == c
    ensures forall u <- s.subs :: s.subs[u].conn != NULL ==>
            s.subs[u].conn in s.conns && s.conns[s.subs[u].conn].mem == u
    ensures forall r, e | r in s.servers && e in s.servers[r].entries ::
            e in s.entries && s.entries[e] in s.conns && s.conns[s.entries[e]].server == r
  {
    hide Inv, Reachable;
    ReachableInv(s);
    EndsAnswered(s);
    forall r, e | r in s.servers && e in s.servers[r].entries
      ensures e in s.entries && s.entries[e] in s.conns && s.conns[s.entries[e]].server == r
    {
      DriverLinks.EntryConn(s, r, e);
    }
  }

  lemma EndsAnswered(s: State)
    requires Inv(s)
    ensures forall c <- s.clients :: s.clients[c].conn != NULL ==>
            s.clients[c].conn in s.conns && s.conns[s.clients[c].conn].client == c
    ensures forall u <- s.subs :: s.subs[u].conn != NULL ==>
            s.subs[u].conn in s.conns && s.conns[s.subs[u].conn].mem == u
  {
    hide Listed, Owned, Pooled, Identified, Separate, Named, Enumerated;
  }

  /** Nothing of a task survives its closing and nothing points to what is gone; its connections' sub-memories and
      its objects' identifiers are free again; connections between other tasks, with their ends and their
      sub-memories, are untouched. */
  lemma ClosingLeavesNothing(s: State, t: Ref)
    requires Reachable(s) && t in s.tasks
    ensures var s' := DriverCommands.CloseTask(s, t);
            && Reachable(s') && t !in s'.tasks
            && (forall c <- s'.clients :: s'.clients[c].task != t) &&
                 (forall r <- s'.servers :: s'.servers[r].task != t)
            && (forall k :: k in s'.conns <==> k in s.conns && !DriverClose.Touches(s, t, k))
            && (forall k <- s'.conns :: s'.conns[k] == s.conns[k])
            && (forall c <- s.clients :: c in s'.clients <==> s.clients[c].task != t)
            && (forall r <- s.servers :: r in s'.servers <==> s.servers[r].task != t)
            && s'.subs.Keys == s.subs.Keys
            && (forall u <- s.subs :: s'.subs[u].conn == if s.subs[u].conn in s'.conns then s.subs[u].conn else NULL)
            && s'.ids == s.ids - DriverClose.OwnIds(s, t)
  {
    hide Inv, Reachable, DriverCommands.CloseTask, DriverTeardown.OnlyDisconnects, DriverTeardown.TrimmedEntries,
         DriverClose.Touches, DriverClose.OwnIds;
    ReachableInv(s);
    StepReachable(s, DriverCommands.Close(t));
    DriverClose.CloseTaskEffect(s, t);
  }

  /** Deleting the connections of a server deletes exactly those, empties its list and leaves every other list as
      it is. */
  lemma {:induction false} CleaningServerIsLocal(s: State, r: Ref)
    requires Inv(s) && r in s.servers
    ensures var s' := CleanServer(s, r);
            && s'.servers == s.servers[r := s.servers[r].(entries := [])]
            && s'.conns == s.conns - set k | k in s.conns && s.conns[k].server == r
    decreases |s.servers[r].entries|
  {
    hide Inv, Unlink, CleanServer, Sendable, DriverTeardown.TornDown;
    DriverTeardown.CleanServerTornDown(s, r);
    var es := s.servers[r].entries;
    if es == [] {
      DriverLinks.NothingToClean(s, r);
    } else {
      DriverLinks.UnlinkFirst(s, r);
      DriverLinks.CleanServerFirst(s, r);
      CleaningServerIsLocal(Unlink(s, s.entries[es[0]]), r);
    }
  }
}
