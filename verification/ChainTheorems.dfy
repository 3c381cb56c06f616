/** What chain replication promises, and what it does not, in every run. */
module ChainTheorems {
  import opened ClientLog
  import opened ChainReplication

  // ------------------------------------------------------------ linearizability

  /** The history parsed from the client log of any run is linearizable: order the operations by
      the tail's dictionary accesses. No get relies on the default value of an absent key. */
  lemma ChainLinearizable(c: Chain)
    requires Reachable(c)
    ensures Alternates(c.log) && WellFormed(Parsed(c.log).events)
    ensures IsLinearization(Parsed(c.log).events, c.accesses) && NoDefault(c.accesses)
    ensures Linearizable(Parsed(c.log).events)
  {
    ReachableInv(c);
    hide ServersInv, Covers, RealTime, AllCalled, DistinctIds, NoDefault, WellFormed, Alternates, Fitting;
    AlternatesIsFitting(c.log);
    assert IsLinearization(Parsed(c.log).events, c.accesses);
  }

  // ------------------------------------------------------------ who has written

  /** The servers that performed a SET form a prefix of the chain; a server that has not
      performed it knows of no later server that has. */
  lemma WritersArePrefix(c: Chain, i: nat, j: nat, o: Operation)
    requires Reachable(c) && i <= j < |c.servers|
    ensures |c.writes| == |c.servers| && (o in c.writes[j] ==> o in c.writes[i])
  {
    ReachableInv(c);
  }

  /** Once the client has seen OK for a SET, every server has performed this very SET. */
  lemma AcknowledgedEverywhere(c: Chain, e: Event, i: nat)
    requires Reachable(c) && e in Parsed(c.log).events && e.kind.ReturnEvent? && e.value.op && i < |c.servers|
    ensures |c.writes| == |c.servers| && Operation(e.id, e.value, e.value) in c.writes[i]
  {
    hide Reachable, Parsed, SpecRun, Tracked, PutsOnly, Holds, LogInv, TailInv, Downstream;
    ReachableInv(c);
    assert ServerInv(Parsed(c.log).events, c.requests, i, c.servers[i], c.writes[i]);
  }

  // ------------------------------------------------------------ replica agreement

  ghost predicate SetCall(e: Event, key: string) {
    e.kind.CallEvent? && e.value.op && e.value.key == key
  }

  /** Another SET of `key` was called after the operation of call `i` had returned. */
  ghost predicate Followed(events: seq<Event>, i: nat, key: string)
    requires i < |events|
  {
    exists r, j :: 0 <= r < j < |events|
      && events[r].kind.ReturnEvent? && events[r].id == events[i].id && SetCall(events[j], key)
  }

  ghost predicate Unfollowed(events: seq<Event>, i: nat, key: string) {
    i < |events| && SetCall(events[i], key) && !Followed(events, i, key)
  }

  /** All SETs of `key` that no later SET follows store the same value. */
  ghost predicate LastSetsAgree(events: seq<Event>, key: string) {
    forall i: nat, j: nat | Unfollowed(events, i, key) && Unfollowed(events, j, key) ::
      events[i].value.value == events[j].value.value
  }

  /** No request is on its way down the chain. */
  ghost predicate Quiescent(c: Chain) {
    forall w <- c.requests :: !c.requests[w].SetAt?
  }

  ghost predicate AgreeOn(c: Chain, key: string) {
    forall i, j :: 0 <= i < |c.servers| && 0 <= j < |c.servers| ==>
      (key in c.servers[i] <==> key in c.servers[j]) && (key in c.servers[i] ==> c.servers[i][key] == c.servers[j][key])
  }

  /** Calls have unique ids, so an id determines its input. */
  lemma UniqueCall(events: seq<Event>, a: Event, b: Event)
    requires WellFormed(events) && a in events && b in events
    requires a.kind.CallEvent? && b.kind.CallEvent? && a.id == b.id
    ensures a == b
  {
    var i :| 0 <= i < |events| && events[i] == a;
    var j :| 0 <= j < |events| && events[j] == b;
  }

  /** A returned put carries its call's key and value. */
  lemma ReturnedPut(events: seq<Event>, a: Event, r: Event)
    requires WellFormed(events) && a in events && r in events
    requires a.kind.CallEvent? && r.kind.ReturnEvent? && a.id == r.id && a.value.op
    ensures r.value == a.value
  {
    var j: nat :| j < |events| && events[j] == r;
    assert Answered(events, j);
    var i: nat :| i < j && Matches(events[i], events[j]);
    UniqueCall(events, a, events[i]);
  }

  /** When nothing is on its way, every SET called so far is written at every server. */
  lemma CalledIsWritten(c: Chain, e: Event, i: nat)
    requires LogInv(c) && ServersInv(c) && Quiescent(c) && i < |c.servers|
    requires e in Parsed(c.log).events && e.kind.CallEvent? && e.value.op
    ensures Operation(e.id, e.value, e.value) in c.writes[i]
  {
    hide WellFormed, SpecRun, Tracked, PutsOnly, Fitting, Parsed, Downstream, HasCall;
    var p := Parsed(c.log);
    assert ServerInv(p.events, c.requests, i, c.servers[i], c.writes[i]);
    if HasReturn(p.events, e.id) {
      var r :| r in p.events && r.kind.ReturnEvent? && r.id == e.id;
      ReturnedPut(p.events, e, r);
    } else {
      var w := e.clientId;
      var call := Event(w, CallEvent, InputOf(c.requests[w]), c.requests[w].id);
      UniqueCall(p.events, e, call);
      assert Holds(c.writes[i], c.requests[w].id, AtServer(i, c.requests[w]));
    }
  }

  /** In every reachable state a server's dictionary holds, for each key, the last value written there. */
  lemma DictIsLastWrite(c: Chain, i: nat, key: string)
    requires Reachable(c) && i < |c.servers|
    ensures |c.writes| == |c.servers|
    ensures key in c.servers[i] ==>
      exists q :: LastWrite(c.writes[i], key, q) && c.servers[i][key] == c.writes[i][q].input.value
    ensures key !in c.servers[i] ==> forall o <- c.writes[i] :: o.input.key != key
  {
    hide Reachable, Parsed, SpecRun, Tracked, Holds, LogInv, TailInv, Downstream, LastWrite;
    ReachableInv(c);
    assert ServerInv(Parsed(c.log).events, c.requests, i, c.servers[i], c.writes[i]);
    RunIsLastWrite(c.writes[i], key);
  }

  lemma RunIsLastWrite(ops: seq<Operation>, key: string)
    requires PutsOnly(ops)
    ensures key in SpecRun(ops).1 ==> exists q :: LastWrite(ops, key, q) && SpecRun(ops).1[key] == ops[q].input.value
    ensures key !in SpecRun(ops).1 ==> forall o <- ops :: o.input.key != key
  {
    FinalStateIsLastPut(ops, key);
    if key in SpecRun(ops).1 {
      var q :| LastPut(ops, |ops|, key, q) && SpecRun(ops).1[key] == ops[q].input.value;
      assert LastWrite(ops, key, q);
    } else {
      assert NoPut(ops, |ops|, key);
    }
  }

  ghost predicate LastWrite(ops: seq<Operation>, key: string, q: int) {
    && 0 <= q < |ops| && ops[q].input.key == key
    && forall x :: q < x < |ops| ==> ops[x].input.key != key
  }

  ghost predicate LaterWrite(ops: seq<Operation>, key: string, q: nat) {
    exists y :: q < y < |ops| && ops[y].input.key == key
  }

  /** A SET called after another one returned is written after it, at every server. */
  lemma FollowedIsLater(c: Chain, i: nat, key: string, q: nat, x: nat)
    requires LogInv(c) && ServersInv(c) && Quiescent(c) && i < |c.servers| == |c.writes| && q < |c.writes[i]|
    requires x < |Parsed(c.log).events| && Parsed(c.log).events[x].id == c.writes[i][q].id
    requires Followed(Parsed(c.log).events, x, key)
    ensures LaterWrite(c.writes[i], key, q)
  {
    hide LogInv, SpecRun, Parsed, Downstream, PutsOnly, CoversSets, Holds, AllCalled, DistinctIds, Quiescent;
    var events := Parsed(c.log).events;
    var ops := c.writes[i];
    assert ServerInv(events, c.requests, i, c.servers[i], ops);
    var r, j :| 0 <= r < j < |events|
      && events[r].kind.ReturnEvent? && events[r].id == events[x].id && SetCall(events[j], key);
    CalledIsWritten(c, events[j], i);
    var y :| 0 <= y < |ops| && ops[y] == Operation(events[j].id, events[j].value, events[j].value);
    assert q < y;
  }

  /** The last writer of a key at any server is a SET that no later SET follows. */
  lemma LastWriteUnfollowed(c: Chain, i: nat, key: string, q: int) returns (x: nat)
    requires LogInv(c) && ServersInv(c) && Quiescent(c) && i < |c.servers|
    requires LastWrite(c.writes[i], key, q)
    ensures Unfollowed(Parsed(c.log).events, x, key)
    ensures Parsed(c.log).events[x].value.value == c.writes[i][q].input.value
  {
    hide SpecRun, LogInv, Parsed, Downstream, Followed, RealTime, DistinctIds;
    var events := Parsed(c.log).events;
    var ops := c.writes[i];
    assert ServerInv(events, c.requests, i, c.servers[i], ops);
    var o := ops[q];
    assert o in ops;
    var w :| Event(w, CallEvent, o.input, o.id) in events;
    x :| 0 <= x < |events| && events[x] == Event(w, CallEvent, o.input, o.id);
    if Followed(events, x, key) {
      FollowedIsLater(c, i, key, q, x);
    }
  }

  /** Replicas agree on a key once nothing is on its way, if the SETs that could be last agree. */
  lemma AgreementAtQuiescence(c: Chain, key: string)
    requires Reachable(c) && Quiescent(c) && LastSetsAgree(Parsed(c.log).events, key)
    ensures AgreeOn(c, key)
  {
    ReachableInv(c);
    hide Reachable, SpecRun, Parsed, TailInv;
    forall i: nat, j: nat | i < |c.servers| && j < |c.servers|
      ensures key in c.servers[i] ==> key in c.servers[j] && c.servers[i][key] == c.servers[j][key]
    {
      if key in c.servers[i] {
        SameValue(c, key, i, j);
      }
    }
  }

  lemma SameValue(c: Chain, key: string, i: nat, j: nat)
    requires LogInv(c) && ServersInv(c) && Quiescent(c) && LastSetsAgree(Parsed(c.log).events, key)
    requires i < |c.servers| && j < |c.servers| && key in c.servers[i]
    ensures key in c.servers[j] && c.servers[i][key] == c.servers[j][key]
  {
    hide LogInv, SpecRun, Parsed, Tracked, CoversSets, Holds, Downstream, Unfollowed, PutsOnly, Quiescent;
    var events := Parsed(c.log).events;
    assert ServerInv(events, c.requests, i, c.servers[i], c.writes[i]);
    assert ServerInv(events, c.requests, j, c.servers[j], c.writes[j]);
    RunIsLastWrite(c.writes[i], key);
    RunIsLastWrite(c.writes[j], key);
    var q :| LastWrite(c.writes[i], key, q) && SpecRun(c.writes[i]).1[key] == c.writes[i][q].input.value;
    var x := LastWriteUnfollowed(c, i, key, q);
    WrittenEverywhere(c, i, j, c.writes[i][q]);
    var q' :| LastWrite(c.writes[j], key, q') && SpecRun(c.writes[j]).1[key] == c.writes[j][q'].input.value;
    var x' := LastWriteUnfollowed(c, j, key, q');
  }

  lemma WrittenEverywhere(c: Chain, i: nat, j: nat, o: Operation)
    requires LogInv(c) && ServersInv(c) && Quiescent(c)
    requires i < |c.servers| && j < |c.servers| && o in c.writes[i]
    ensures o in c.writes[j]
  {
    hide LogInv, SpecRun, Parsed, CoversSets, Holds, Downstream, RealTime, DistinctIds, Quiescent;
    var events := Parsed(c.log).events;
    assert ServerInv(events, c.requests, i, c.servers[i], c.writes[i]);
    var w :| Event(w, CallEvent, o.input, o.id) in events;
    CalledIsWritten(c, Event(w, CallEvent, o.input, o.id), j);
  }
}
