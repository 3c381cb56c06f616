/** When the SETs of a key never overlap, every server performs them in the same order. */
module ChainOrder {
  import opened ClientLog
  import opened ChainReplication
  import opened ChainTheorems

  /** Every SET of `key` has returned before the next one is called. */
  ghost predicate NonOverlapping(events: seq<Event>, key: string) {
    forall i: nat, j: nat | i < j < |events| && SetCall(events[i], key) && SetCall(events[j], key) ::
      ReturnsBetween(events, i, j)
  }

  ghost predicate ReturnsBetween(events: seq<Event>, i: nat, j: nat)
    requires i < j < |events|
  {
    exists r :: i < r < j && events[r].kind.ReturnEvent? && events[r].id == events[i].id
  }

  /** The writes of one key, in order. */
  function KeyLog(ops: seq<Operation>, key: string): seq<Operation> {
    if ops == [] then []
    else
      var init := KeyLog(ops[..|ops| - 1], key);
      if ops[|ops| - 1].input.key == key then init + [ops[|ops| - 1]] else init
  }

  ghost predicate ById(ops: seq<Operation>) {
    forall p, q :: 0 <= p < q < |ops| ==> ops[p].id < ops[q].id
  }

  lemma {:induction false} KeyLogMembers(ops: seq<Operation>, key: string)
    ensures forall o :: o in KeyLog(ops, key) <==> o in ops && o.input.key == key
  {
    if ops != [] {
      var init := ops[..|ops| - 1];
      KeyLogMembers(init, key);
      assert ops == init + [ops[|ops| - 1]];
    }
  }

  lemma {:induction false} KeyLogById(ops: seq<Operation>, key: string)
    requires forall p, q :: 0 <= p < q < |ops| && ops[p].input.key == ops[q].input.key == key ==> ops[p].id < ops[q].id
    ensures ById(KeyLog(ops, key))
  {
    if ops != [] {
      var n := |ops| - 1;
      var init := ops[..n];
      KeyLogById(init, key);
      KeyLogMembers(init, key);
      var kept := KeyLog(init, key);
      forall p | 0 <= p < |kept| && ops[n].input.key == key ensures kept[p].id < ops[n].id {
        assert kept[p] in kept;
        var x :| 0 <= x < n && ops[x] == kept[p];
      }
    }
  }

  /** Two lists in id order, one inside the other and missing only larger ids, are prefixes. */
  lemma {:induction false} MissingOnlyLater(a: seq<Operation>, b: seq<Operation>)
    requires ById(a) && ById(b)
    requires forall o <- b :: o in a
    requires forall o <- a, x <- b | o !in b :: x.id < o.id
    ensures b <= a
  {
    if b != [] {
      var t := |b| - 1;
      var init := b[..t];
      assert b == init + [b[t]];
      forall o <- a, x <- init | o !in init ensures x.id < o.id {
        assert o in b ==> o == b[t];
      }
      MissingOnlyLater(a, init);
      assert b[t] in b;
      LastFits(a, b, t);
    }
  }

  lemma LastFits(a: seq<Operation>, b: seq<Operation>, t: nat)
    requires ById(a) && ById(b) && |b| == t + 1 && b[..t] <= a && b[t] in a
    requires forall o <- a, x <- b | o !in b :: x.id < o.id
    ensures b <= a
  {
    var y :| 0 <= y < |a| && a[y] == b[t];
    assert forall x :: 0 <= x < t ==> a[x] == b[..t][x];
    if t < y {
      OneLeftOut(a, b, t, y);
    }
  }

  /** If the last operation of `b` is not the next one of `a`, the next one is older and missing. */
  lemma OneLeftOut(a: seq<Operation>, b: seq<Operation>, t: nat, y: nat)
    requires ById(a) && |b| == t + 1 && b[..t] <= a && t < y < |a| && a[y] == b[t]
    ensures a[t] in a && b[t] in b && a[t] !in b && a[t].id < b[t].id
  {
    forall z | 0 <= z < |b| ensures b[z] != a[t] {
      if z < t {
        assert b[z] == b[..t][z] == a[z];
      }
    }
  }

  /** At one server, SETs of a key are written in the order of their calls. */
  lemma WritesInCallOrder(c: Chain, i: nat, key: string, p: nat, q: nat)
    requires LogInv(c) && ServersInv(c) && i < |c.servers| && NonOverlapping(Parsed(c.log).events, key)
    requires p < q < |c.writes[i]| && c.writes[i][p].input.key == c.writes[i][q].input.key == key
    ensures c.writes[i][p].id < c.writes[i][q].id
  {
    hide LogInv, Parsed, SpecRun, Holds, CoversSets, Downstream, ReturnsBetween;
    var events, ops := Parsed(c.log).events, c.writes[i];
    assert ServerInv(events, c.requests, i, c.servers[i], ops);
    assert ops[p] in ops && ops[q] in ops;
    var x := CallOf(events, ops, p);
    var y := CallOf(events, ops, q);
    assert WellFormed(events) by {
      WellFormedLog(c);
    }
    if y < x {
      CallOrderRespected(events, ops, p, q, x, y, key);
    }
  }

  lemma WellFormedLog(c: Chain)
    requires LogInv(c)
    ensures WellFormed(Parsed(c.log).events)
  {
  }

  lemma CallOf(events: seq<Event>, ops: seq<Operation>, p: nat) returns (x: nat)
    requires AllCalled(events, ops) && p < |ops|
    ensures x < |events| && events[x].kind.CallEvent? && events[x].id == ops[p].id && events[x].value == ops[p].input
  {
    assert ops[p] in ops;
    var w :| Event(w, CallEvent, ops[p].input, ops[p].id) in events;
    x :| 0 <= x < |events| && events[x] == Event(w, CallEvent, ops[p].input, ops[p].id);
  }

  lemma CallOrderRespected(events: seq<Event>, ops: seq<Operation>, p: nat, q: nat, x: nat, y: nat, key: string)
    requires RealTime(events, ops) && NonOverlapping(events, key)
    requires p < |ops| && q < |ops| && y < x < |events|
    requires SetCall(events[x], key) && SetCall(events[y], key)
    requires events[x].id == ops[p].id && events[y].id == ops[q].id
    ensures q < p
  {
    assert ReturnsBetween(events, y, x);
    var r :| y < r < x && events[r].kind.ReturnEvent? && events[r].id == events[y].id;
  }

  /** A SET one server has and a later server still lacks is the newest of its key. */
  lemma MissingIsNewest(c: Chain, i: nat, j: nat, key: string, p: nat, q: nat)
    requires LogInv(c) && ServersInv(c) && i < |c.servers| && j < |c.servers|
    requires NonOverlapping(Parsed(c.log).events, key)
    requires p < |c.writes[i]| && c.writes[i][p] !in c.writes[j] && c.writes[i][p].input.key == key
    requires q < |c.writes[j]| && c.writes[j][q].input.key == key && c.writes[j][q].id != c.writes[i][p].id
    ensures c.writes[j][q].id < c.writes[i][p].id
  {
    hide LogInv, Parsed, SpecRun, Holds, Downstream, ReturnsBetween, RealTime;
    var events := Parsed(c.log).events;
    assert ServerInv(events, c.requests, i, c.servers[i], c.writes[i]);
    assert ServerInv(events, c.requests, j, c.servers[j], c.writes[j]);
    var o := c.writes[i][p];
    assert o in c.writes[i] && c.writes[j][q] in c.writes[j];
    var x := CallOf(events, c.writes[i], p);
    var y := CallOf(events, c.writes[j], q);
    assert WellFormed(events) by {
      WellFormedLog(c);
    }
    if x < y {
      assert ReturnsBetween(events, x, y);
      ReturnedIsWritten(events, c.writes[j], x, y, o);
    }
  }

  lemma ReturnedIsWritten(events: seq<Event>, ops: seq<Operation>, x: nat, y: nat, o: Operation)
    requires WellFormed(events) && CoversSets(events, ops) && x < y < |events| && ReturnsBetween(events, x, y)
    requires events[x].kind.CallEvent? && events[x].value == o.input == o.output && o.input.op && events[x].id == o.id
    ensures o in ops
  {
    hide WellFormed;
    var r :| x < r < y && events[r].kind.ReturnEvent? && events[r].id == events[x].id;
    ReturnedPut(events, events[x], events[r]);
    assert events[r] in events;
  }

  /** In every reachable state, without overlap, each server's writes of a key are a prefix of
      those of every server before it. */
  lemma KeyLogsArePrefixes(c: Chain, i: nat, j: nat, key: string)
    requires Reachable(c) && i <= j < |c.servers| && NonOverlapping(Parsed(c.log).events, key)
    ensures |c.writes| == |c.servers| && KeyLog(c.writes[j], key) <= KeyLog(c.writes[i], key)
  {
    hide Reachable, LogInv, TailInv, Parsed, NonOverlapping, SpecRun, ServerInv, ById;
    ReachableInv(c);
    var a, b := KeyLog(c.writes[i], key), KeyLog(c.writes[j], key);
    KeyLogMembers(c.writes[i], key);
    KeyLogMembers(c.writes[j], key);
    ServerById(c, i, key);
    ServerById(c, j, key);
    forall o <- a, x <- b | o !in b ensures x.id < o.id {
      var p :| 0 <= p < |c.writes[i]| && c.writes[i][p] == o;
      var q :| 0 <= q < |c.writes[j]| && c.writes[j][q] == x;
      DifferentIds(c, i, j, o, x);
      MissingIsNewest(c, i, j, key, p, q);
    }
    MissingOnlyLater(a, b);
  }

  lemma ServerById(c: Chain, i: nat, key: string)
    requires LogInv(c) && ServersInv(c) && i < |c.servers| && NonOverlapping(Parsed(c.log).events, key)
    ensures |c.writes| == |c.servers| && ById(KeyLog(c.writes[i], key))
  {
    hide LogInv, Parsed, NonOverlapping, SpecRun, ServerInv, ById;
    var ops := c.writes[i];
    forall p, q | 0 <= p < q < |ops| && ops[p].input.key == ops[q].input.key == key ensures ops[p].id < ops[q].id {
      WritesInCallOrder(c, i, key, p, q);
    }
    KeyLogById(ops, key);
  }

  lemma DifferentIds(c: Chain, i: nat, j: nat, o: Operation, x: Operation)
    requires ServersInv(c) && i <= j < |c.servers| && o in c.writes[i] && o !in c.writes[j] && x in c.writes[j]
    ensures o.id != x.id
  {
    hide Parsed, SpecRun, Holds, CoversSets, AllCalled, RealTime;
    assert ServerInv(Parsed(c.log).events, c.requests, i, c.servers[i], c.writes[i]);
    assert x in c.writes[i];
    var p :| 0 <= p < |c.writes[i]| && c.writes[i][p] == o;
    var q :| 0 <= q < |c.writes[i]| && c.writes[i][q] == x;
    assert p != q;
  }

  /** Without overlap at most one SET of a key is unfollowed, so the replicas agree at quiescence. */
  lemma NonOverlappingAgree(c: Chain, key: string)
    requires Reachable(c) && Quiescent(c) && NonOverlapping(Parsed(c.log).events, key)
    ensures AgreeOn(c, key)
  {
    hide Reachable, AgreeOn;
    var events := Parsed(c.log).events;
    forall i: nat, j: nat | i < j < |events| && SetCall(events[i], key) && SetCall(events[j], key)
      ensures Followed(events, i, key)
    {
      OverlapFollows(events, i, j, key);
    }
    hide NonOverlapping, Followed;
    forall i: nat, j: nat | Unfollowed(events, i, key) && Unfollowed(events, j, key) ensures i == j {
    }
    AgreementAtQuiescence(c, key);
  }

  lemma OverlapFollows(events: seq<Event>, i: nat, j: nat, key: string)
    requires i < j < |events| && SetCall(events[j], key) && ReturnsBetween(events, i, j)
    ensures Followed(events, i, key)
  {
    var r :| i < r < j && events[r].kind.ReturnEvent? && events[r].id == events[i].id;
    assert SetCall(events[j], key);
  }
}
