/** What the Bayou cluster can always do: take a client's write at any server, and bring all servers to agreement. */
module BayouLive {
  import opened BayouLog
  import opened BayouStorage
  import opened BayouCluster
  import opened BayouTheorems

  // ------------------------------------------------------------ a client's write

  /**
   * Any server takes a write at any time, with a clock ahead of its own writes. At the primary it is committed at once
   * and its character ends both strings; elsewhere it becomes tentative and the committed string does not change.
   */
  lemma AnyoneWrites(a: Cluster, s: string, ch: char, ts: int) returns (b: Cluster)
    requires Reachable(a) && s in a.nodes && 0 < ts
    requires forall d <- a.issued :: d.ltime.name == s ==> d.ltime.ts < ts
    ensures Reachable(b) && Next(a, Write(s, ch, ts), b) && b.nodes.Keys == a.nodes.Keys && b.primary == a.primary
    ensures b.issued == a.issued + {Entry(LogicalTime(s, ts), ch)}
    ensures s == a.primary ==> b.nodes[s].cst == a.nodes[s].cst + [ch] && b.nodes[s].tst == b.nodes[s].cst
    ensures s != a.primary ==>
      && b.nodes[s].cst == a.nodes[s].cst
      && forall d :: d in b.nodes[s].tlog <==> d in a.nodes[s].tlog || d == Entry(LogicalTime(s, ts), ch)
    ensures forall x :: x in a.nodes && x != s ==> b.nodes[x] == a.nodes[x]
  {
    hide Reachable, Inv, ValidStore, LtimeEarlier, Written, AskStep, AnswerStep, DeliverStep;
    ReachableInv(a);
    var e := Entry(LogicalTime(s, ts), ch);
    b := a.(nodes := a.nodes[s := Written(s == a.primary, a.nodes[s], e)], issued := a.issued + {e});
    assert WriteStep(a, e, b);
    ReachableNext(a, Write(s, ch, ts), b);
    WriteIsFresh(a, e);
    hide *;
    WrittenShown(s == a.primary, a.nodes[s], e);
  }

  lemma WrittenShown(isPrimary: bool, st: Store, e: Entry)
    requires ValidStore(st) && e.ltime.name in st.c && (isPrimary ==> st.tlog == [])
    requires !LtimeEarlier(st.f, e.ltime) && !LtimeEarlier(st.c, e.ltime)
    ensures var r := Written(isPrimary, st, e);
      if isPrimary then r.cst == st.cst + [e.ch] && r.tst == r.cst
      else r.cst == st.cst && forall d :: d in r.tlog <==> d in st.tlog || d == e
  {
    hide ValidStore, LtimeEarlier, Applied;
    StoreReplays(st);
    if isPrimary {
      CommittedWrite(st, e);
      ReplayConcat(st.clog, [e]);
    } else {
      TentativeWrite(st, e);
    }
    StoreReplays(Written(isPrimary, st, e));
  }

  lemma WriteIsFresh(a: Cluster, e: Entry)
    requires Inv(a) && e.ltime.name in a.nodes && 0 < e.ltime.ts
    requires forall d <- a.issued | d.ltime.name == e.ltime.name :: d.ltime.ts < e.ltime.ts
    ensures var st := a.nodes[e.ltime.name];
      && ValidStore(st) && e.ltime.name in st.c && !LtimeEarlier(st.f, e.ltime) && !LtimeEarlier(st.c, e.ltime)
      && (e.ltime.name == a.primary ==> st.tlog == [])
  {
    hide NodeInv, PullInv, OrderInv, ValidStore;
    var servers, st := a.nodes.Keys, a.nodes[e.ltime.name];
    assert NodeInv(servers, Order(a), a.issued, st);
    OrderIssued(servers, Order(a), a.issued);
    NodeFacts(servers, Order(a), a.issued, st);
    VectorBehindClock(servers, Order(a), a.issued, st, e);
  }

  lemma ReachableNext(a: Cluster, step: Step, b: Cluster)
    requires Reachable(a) && Next(a, step, b)
    ensures Reachable(b)
  {
    hide Next, Init;
    var states, steps :| Run(states, steps) && Init(states[0]) && states[|steps|] == a;
    Continued(states, steps, [a, b], [step]);
    assert Init((states + [b])[0]);
  }

  // ------------------------------------------------------------ runs, one after the other

  /** The second run continues the first. */
  function Joined(states: seq<Cluster>, more: seq<Cluster>): seq<Cluster>
    requires more != []
  {
    states + more[1..]
  }

  lemma Continued(states: seq<Cluster>, steps: seq<Step>, states': seq<Cluster>, steps': seq<Step>)
    requires Run(states, steps) && Run(states', steps') && states[|steps|] == states'[0]
    ensures Run(Joined(states, states'), steps + steps')
    ensures var all := Joined(states, states'); all[|steps|..] == states' && all[..|states|] == states
  {
    hide Next;
    var all := Joined(states, states');
    forall i | 0 <= i < |steps + steps'| ensures Next(all[i], (steps + steps')[i], all[i + 1]) {
      if i < |steps| {
        assert Next(states[i], steps[i], states[i + 1]);
      } else {
        var j := i - |steps|;
        assert Next(states'[j], steps'[j], states'[j + 1]);
      }
    }
  }

  lemma PulledBefore(states: seq<Cluster>, steps: seq<Step>, states': seq<Cluster>, steps': seq<Step>, src: string,
                     dst: string)
    requires |states| == |steps| + 1 && |states'| == |steps'| + 1 && Pulled(states, steps, 0, |steps|, src, dst)
    ensures Pulled(Joined(states, states'), steps + steps', 0, |steps|, src, dst)
    ensures Pulled(Joined(states, states'), steps + steps', 0, |steps + steps'|, src, dst)
  {
    var id, j, k := PullOf(states, steps, 0, |steps|, src, dst);
    assert Joined(states, states')[j] == states[j];
    assert (steps + steps')[j] == steps[j] && (steps + steps')[k] == steps[k];
  }

  lemma PulledAfter(states: seq<Cluster>, steps: seq<Step>, states': seq<Cluster>, steps': seq<Step>, src: string,
                    dst: string)
    requires |states| == |steps| + 1 && |states'| == |steps'| + 1 && states[|steps|] == states'[0]
    requires Pulled(states', steps', 0, |steps'|, src, dst)
    ensures Pulled(Joined(states, states'), steps + steps', |steps|, |steps + steps'|, src, dst)
    ensures Pulled(Joined(states, states'), steps + steps', 0, |steps + steps'|, src, dst)
  {
    var id, j, k := PullOf(states', steps', 0, |steps'|, src, dst);
    var n := |steps|;
    assert Joined(states, states')[n + j] == states'[j];
    assert (steps + steps')[n + j] == steps'[j] && (steps + steps')[n + k] == steps'[k];
  }

  // ------------------------------------------------------------ pulls

  lemma UnusedId(pulls: map<nat, Pull>) returns (id: nat)
    ensures id !in pulls
  {
    id := Above(pulls.Keys);
  }

  lemma {:induction false} Above(ids: set<nat>) returns (bound: nat)
    ensures forall id <- ids :: id < bound
    decreases ids
  {
    bound := 0;
    if ids != {} {
      var one :| one in ids;
      var rest := Above(ids - {one});
      bound := if one < rest then rest else one + 1;
      forall id <- ids ensures id < bound {
        assert id == one || id in ids - {one};
      }
    }
  }

  /** Any server can pull from any other at any time. */
  lemma OnePull(a: Cluster, src: string, dst: string) returns (states: seq<Cluster>, steps: seq<Step>)
    requires Reachable(a) && src in a.nodes && dst in a.nodes && src != dst
    ensures Run(states, steps) && states[0] == a && NoWrites(steps) && Reachable(states[|steps|])
    ensures Pulled(states, steps, 0, |steps|, src, dst)
    ensures states[|steps|].nodes.Keys == a.nodes.Keys && states[|steps|].primary == a.primary
  {
    hide Reachable, Missing, Received;
    var id := UnusedId(a.pulls);
    var b := a.(pulls := a.pulls[id := Asked(src, dst, a.nodes[src].c, a.nodes[src].f)]);
    assert AskStep(a, id, src, dst, b);
    ReachableNext(a, Ask(id, src, dst), b);
    var c := b.(pulls := b.pulls[id := Answering(b.pulls[id], b.nodes[dst])]);
    assert AnswerStep(b, id, c);
    ReachableNext(b, Answer(id), c);
    RequestsNeverFail(c, id);
    var p := c.pulls[id];
    var d := c.(nodes := c.nodes[src :=
      Received(src == c.primary, c.nodes[src], p.reply.committed, p.reply.tentative)]);
    assert DeliverStep(c, id, d);
    ReachableNext(c, Deliver(id), d);
    states, steps := [a, b, c, d], [Ask(id, src, dst), Answer(id), Deliver(id)];
    assert steps[1] == Answer(id) && steps[2] == Deliver(id) && id in states[1].pulls;
  }

  /** A round of pulls: `p` from all of `peers`, or all of them from `p`. */
  lemma {:induction false} Round(a: Cluster, p: string, peers: set<string>, collect: bool)
    returns (states: seq<Cluster>, steps: seq<Step>)
    requires Reachable(a) && p in a.nodes && peers <= a.nodes.Keys - {p}
    ensures Run(states, steps) && states[0] == a && NoWrites(steps) && Reachable(states[|steps|])
    ensures forall x <- peers ::
      if collect then Pulled(states, steps, 0, |steps|, p, x) else Pulled(states, steps, 0, |steps|, x, p)
    ensures states[|steps|].nodes.Keys == a.nodes.Keys && states[|steps|].primary == a.primary
    decreases peers
  {
    hide Reachable, Pulled, Next;
    if peers == {} {
      states, steps := [a], [];
    } else {
      var x :| x in peers;
      var src, dst := if collect then p else x, if collect then x else p;
      var first, firstSteps := OnePull(a, src, dst);
      var more, moreSteps := Round(first[|firstSteps|], p, peers - {x}, collect);
      states, steps := Joined(first, more), firstSteps + moreSteps;
      Continued(first, firstSteps, more, moreSteps);
      PulledBefore(first, firstSteps, more, moreSteps, src, dst);
      forall y <- peers | y != x
        ensures if collect then Pulled(states, steps, 0, |steps|, p, y) else Pulled(states, steps, 0, |steps|, y, p)
      {
        PulledAfter(first, firstSteps, more, moreSteps, if collect then p else y, if collect then y else p);
      }
    }
  }

  /**
   * From every reachable state, whatever is under way or was lost, anti-entropy alone can bring all servers to equal
   * stores in which every write issued so far is committed.
   */
  lemma CanAlwaysConverge(a: Cluster) returns (states: seq<Cluster>, steps: seq<Step>)
    requires Reachable(a)
    ensures Run(states, steps) && states[0] == a && NoWrites(steps)
    ensures var cl := states[|steps|];
      && cl.nodes.Keys == a.nodes.Keys && cl.issued == a.issued
      && (forall s <- cl.nodes :: cl.nodes[s].tlog == [] && forall e :: e in cl.nodes[s].clog <==> e in a.issued)
      && (forall s, t | s in cl.nodes && t in cl.nodes :: cl.nodes[s] == cl.nodes[t])
  {
    var mid: nat;
    states, steps, mid := TwoRounds(a);
    hide *;
    Convergence(states, steps, mid);
  }

  lemma TwoRounds(a: Cluster) returns (states: seq<Cluster>, steps: seq<Step>, mid: nat)
    requires Reachable(a)
    ensures Run(states, steps) && |states| == |steps| + 1 && mid <= |steps|
    ensures states[0] == a && NoWrites(steps) && states[|steps|].nodes.Keys == a.nodes.Keys
    ensures forall x <- a.nodes | x != a.primary :: Pulled(states, steps, 0, mid, a.primary, x)
    ensures forall x <- a.nodes | x != a.primary :: Pulled(states, steps, mid, |steps|, x, a.primary)
  {
    hide Reachable, Pulled, Next, Inv;
    var p, peers := a.primary, a.nodes.Keys - {a.primary};
    ReachableInv(a);
    PrimaryIsNode(a);
    var first, firstSteps := Round(a, p, peers, true);
    var more, moreSteps := Round(first[|firstSteps|], p, peers, false);
    states, steps, mid := Joined(first, more), firstSteps + moreSteps, |firstSteps|;
    Continued(first, firstSteps, more, moreSteps);
    forall x <- peers
      ensures Pulled(states, steps, 0, mid, p, x) && Pulled(states, steps, mid, |steps|, x, p)
    {
      PulledBefore(first, firstSteps, more, moreSteps, p, x);
      PulledAfter(first, firstSteps, more, moreSteps, x, p);
    }
  }
}
