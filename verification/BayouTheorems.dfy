/** What the Bayou cluster promises in every run. */
module BayouTheorems {
  import opened BayouLog
  import opened BayouStorage
  import opened BayouCluster

  ghost predicate Reachable(cl: Cluster) {
    exists states: seq<Cluster>, steps: seq<Step> ::
      Run(states, steps) && Init(states[0]) && states[|steps|] == cl
  }

  lemma ReachableInv(cl: Cluster)
    requires Reachable(cl)
    ensures Inv(cl)
  {
    hide Init, Next;
    var states, steps :| Run(states, steps) && Init(states[0]) && states[|steps|] == cl;
    InitInv(states[0]);
    RunKeepsInv(states, steps, |steps|);
  }

  // ------------------------------------------------------------ safety in every reachable state

  /** Every committed log is a prefix of the primary's, and the primary has nothing tentative. */
  lemma CommittedIsPrefix(cl: Cluster, s: string)
    requires Reachable(cl) && s in cl.nodes
    ensures cl.primary in cl.nodes && cl.nodes[s].clog <= cl.nodes[cl.primary].clog
    ensures cl.nodes[s].cst <= cl.nodes[cl.primary].cst
    ensures var p := cl.nodes[cl.primary]; p.tlog == [] && p.c == p.f && p.cst == p.tst
  {
    ReachableInv(cl);
    var st, p := cl.nodes[s], cl.nodes[cl.primary];
    assert NodeInv(cl.nodes.Keys, Order(cl), cl.issued, st) && NodeInv(cl.nodes.Keys, Order(cl), cl.issued, p);
    hide Inv;
    PrefixStates(st, p);
  }

  lemma StoreReplays(st: Store)
    requires ValidStore(st)
    ensures st.cst == Replay(st.clog)
    ensures st.tlog == [] ==> st.c == st.f && st.cst == st.tst
  {
    hide RaiseAll, Replay;
    ChkInvariants(st);
  }

  lemma PrefixStates(st: Store, p: Store)
    requires ValidStore(st) && ValidStore(p) && st.clog <= p.clog && p.tlog == []
    ensures st.cst <= p.cst && p.c == p.f && p.cst == p.tst
  {
    hide ValidStore, Replay;
    StoreReplays(st);
    StoreReplays(p);
    assert p.clog == st.clog + p.clog[|st.clog|..];
    ReplayConcat(st.clog, p.clog[|st.clog|..]);
  }

  /** Any two servers have committed comparable logs, and their committed vectors compare the same way. */
  lemma CommitsComparable(cl: Cluster, s: string, t: string)
    requires Reachable(cl) && s in cl.nodes && t in cl.nodes
    ensures var a, b := cl.nodes[s], cl.nodes[t];
            || (a.clog <= b.clog && VtimeEarlier(b.c, a.c))
            || (b.clog <= a.clog && VtimeEarlier(a.c, b.c))
  {
    ReachableInv(cl);
    var servers, order := cl.nodes.Keys, Order(cl);
    var a, b := cl.nodes[s], cl.nodes[t];
    NodeCut(servers, order, cl.issued, a);
    NodeCut(servers, order, cl.issued, b);
    hide Inv;
    var n, m := |a.clog|, |b.clog|;
    if n <= m {
      CutsOrdered(servers, order, n, m);
    } else {
      CutsOrdered(servers, order, m, n);
    }
  }

  /** A server's vectors say exactly which writes it holds and which of them are committed. */
  lemma VectorsAreKnowledge(cl: Cluster, s: string, e: Entry)
    requires Reachable(cl) && s in cl.nodes
    ensures var st := cl.nodes[s];
            && (Knows(st, e) <==> e in cl.issued && LtimeEarlier(st.f, e.ltime))
            && (e in st.clog <==> e in cl.issued && LtimeEarlier(st.c, e.ltime))
            && (e in st.tlog ==> e !in st.clog)
  {
    ReachableInv(cl);
    InvKnowledge(cl, s, e);
  }

  lemma InvKnowledge(cl: Cluster, s: string, e: Entry)
    requires Inv(cl) && s in cl.nodes
    ensures var st := cl.nodes[s];
            && (Knows(st, e) <==> e in cl.issued && LtimeEarlier(st.f, e.ltime))
            && (e in st.clog <==> e in cl.issued && LtimeEarlier(st.c, e.ltime))
            && (e in st.tlog ==> e !in st.clog)
  {
    var servers, order := cl.nodes.Keys, Order(cl);
    var st := cl.nodes[s];
    assert NodeInv(servers, order, cl.issued, st);
    assert OrderInv(servers, order, cl.issued);
    hide Inv;
    NodeFacts(servers, order, cl.issued, st);
    NodeCut(servers, order, cl.issued, st);
    ChkInvariants(st);
    if e in cl.issued {
      CutExact(servers, order, cl.issued, |st.clog|, e);
    }
    assert e in st.clog ==> e in order;
  }

  /** An anti-entropy request is never rejected: the vectors it carries are always comparable. */
  lemma RequestsNeverFail(cl: Cluster, id: nat)
    requires Reachable(cl) && id in cl.pulls
    ensures var p := cl.pulls[id];
            && p.src in cl.nodes && p.dst in cl.nodes
            && Missing(cl.nodes[p.dst], p.c, p.f).Reply?
            && (p.Answered? ==> p.reply.Reply?)
  {
    ReachableInv(cl);
    var p := cl.pulls[id];
    var src, dst := cl.nodes[p.src], cl.nodes[p.dst];
    assert PullInv(cl.nodes.Keys, Order(cl), cl.issued, src, dst, p);
    var n: nat :| n <= |src.clog| && n <= |Order(cl)| && p.c == Cut(cl.nodes.Keys, Order(cl)[..n]);
    MissingPiece(cl.nodes.Keys, Order(cl), cl.issued, dst, p, n);
  }

  /** A reply holds exactly what the peer knows beyond the vectors it was asked with. */
  lemma ReplyIsExactlyMissing(cl: Cluster, p: Pull, e: Entry)
    requires Reachable(cl) && p.Asked? && p.src in cl.nodes && p.dst in cl.nodes
    requires p.c == cl.nodes[p.src].c && p.f == cl.nodes[p.src].f
    ensures var src, dst := cl.nodes[p.src], cl.nodes[p.dst];
            var r := Missing(dst, p.c, p.f);
            && r.Reply?
            && (e in r.committed <==> e in dst.clog && e !in src.clog)
            && (e in r.tentative <==> e in dst.tlog && !Knows(src, e))
  {
    ReachableInv(cl);
    var servers, order := cl.nodes.Keys, Order(cl);
    var src, dst := cl.nodes[p.src], cl.nodes[p.dst];
    assert NodeInv(servers, order, cl.issued, src) && NodeInv(servers, order, cl.issued, dst);
    assert OrderInv(servers, order, cl.issued);
    hide Inv, NodeInv, After, Missing, OriginOrdered;
    NodeCut(servers, order, cl.issued, src);
    NodeCut(servers, order, cl.issued, dst);
    MissingPiece(servers, order, cl.issued, dst, p, |src.clog|);
    AfterMembers(p.f, dst.tlog);
    InvKnowledge(cl, p.src, e);
    InvKnowledge(cl, p.dst, e);
    hide OrderInv, LtimeEarlier;
    PieceMembers(servers, order, cl.issued, |src.clog|, |dst.clog|, e);
  }

  lemma PieceMembers(servers: set<string>, order: seq<Entry>, issued: set<Entry>, n: nat, m: nat, e: Entry)
    requires OrderInv(servers, order, issued) && n <= |order| && m <= |order|
    ensures e in order[n..if n <= m then m else n] <==> e in order[..m] && e !in order[..n]
  {
    if e in order[..m] {
      SplitPrefix(order, n, m, e);
    }
    if n <= m && e in order[n..m] {
      var i :| n <= i < m && order[i] == e;
      assert order[..m][i] == e;
      assert e in order[n..];
      NotInPrefix(order, n, e);
    }
  }

  lemma AppliedInventsNothing(s: Store, commits: seq<Entry>, tentatives: seq<Entry>, e: Entry)
    requires ValidStore(s) && Named(commits, s.c) && Named(tentatives, s.c)
    requires Knows(Applied(s, commits, tentatives), e)
    ensures Knows(s, e) || e in commits || e in tentatives
  {
    AppliedTentatives(s, commits, tentatives);
    hide ValidStore, Sorted;
    NewsMembers(s.c, commits);
    NewsMembers(RaiseAll(s.f, commits), tentatives);
    AfterMembers(RaiseAll(s.c, commits), s.tlog);
  }

  /** A pull with nothing in between leaves the asking server with the union of both servers' writes. */
  lemma FreshPullIsUnion(a: Cluster, id: nat, src: string, dst: string, b: Cluster, c: Cluster, d: Cluster, e: Entry)
    requires Reachable(a) && AskStep(a, id, src, dst, b) && AnswerStep(b, id, c) && DeliverStep(c, id, d)
    ensures Knows(d.nodes[src], e) <==> Knows(a.nodes[src], e) || Knows(a.nodes[dst], e)
    ensures e in a.nodes[dst].clog ==> e in d.nodes[src].clog
    ensures forall x <- a.nodes | x != src :: x in d.nodes && d.nodes[x] == a.nodes[x]
  {
    hide Inv, Reachable, Applied, Missing, Knows, Grows;
    ReachableInv(a);
    AskKeepsInv(a, id, src, dst, b);
    AnswerKeepsInv(b, id, c);
    DeliverKeepsInv(c, id, d);
    FreshPullLosesNothing(a, src, dst, c, id, d, e);
    if Knows(d.nodes[src], e) {
      FreshPullInventsNothing(a, src, dst, c, id, d, e);
    }
  }

  lemma FreshPullLosesNothing(a: Cluster, src: string, dst: string, c: Cluster, id: nat, d: Cluster, e: Entry)
    requires Inv(a) && Inv(c) && Inv(d) && DeliverStep(c, id, d) && Grows(c, d, src)
    requires c.nodes == a.nodes && c.issued == a.issued && src in a.nodes && dst in a.nodes
    requires c.pulls[id].seenF == a.nodes[dst].f && c.pulls[id].seenC == a.nodes[dst].c
    requires Transferred(c.issued, c.pulls[id], d.nodes[src])
    ensures Knows(a.nodes[src], e) || Knows(a.nodes[dst], e) ==> Knows(d.nodes[src], e)
    ensures e in a.nodes[dst].clog ==> e in d.nodes[src].clog
  {
    hide Inv, Transferred, Applied, Missing, VtimeEarlier, Forward, Beyond;
    InvKnowledge(a, src, e);
    InvKnowledge(a, dst, e);
    InvKnowledge(d, src, e);
    GrowsIsForward(c, d, src);
    ForwardNode(c, d, src, e);
    if e in a.issued {
      TransferredOne(c.issued, c.pulls[id], d.nodes[src], e);
    }
  }

  lemma FreshPullInventsNothing(a: Cluster, src: string, dst: string, c: Cluster, id: nat, d: Cluster, e: Entry)
    requires Reachable(a) && Inv(c) && DeliverStep(c, id, d) && c.nodes == a.nodes
    requires src in a.nodes && dst in a.nodes && c.primary == a.primary
    requires c.pulls[id] == Answering(Asked(src, dst, a.nodes[src].c, a.nodes[src].f), a.nodes[dst])
    requires Knows(d.nodes[src], e)
    ensures Knows(a.nodes[src], e) || Knows(a.nodes[dst], e)
  {
    var p := c.pulls[id];
    var st, peer := c.nodes[src], c.nodes[dst];
    assert PullInv(c.nodes.Keys, Order(c), c.issued, st, peer, p);
    assert NodeInv(c.nodes.Keys, Order(c), c.issued, st) && OrderInv(c.nodes.Keys, Order(c), c.issued);
    hide Inv, Reachable, AskInv, Applied, ValidStore;
    ReplyNamed(c.nodes.Keys, Order(c), c.issued, st, peer, p);
    ReplyIsExactlyMissing(a, Asked(src, dst, st.c, st.f), e);
    hide Missing, NodeInv, OrderInv;
    var commits, tentatives := p.reply.committed, p.reply.tentative;
    if src == c.primary {
      AppliedInventsNothing(st, commits + tentatives, [], e);
    } else {
      AppliedInventsNothing(st, commits, tentatives, e);
    }
  }

  // ------------------------------------------------------------ progress along a run

  /** What one step never takes back. */
  ghost predicate Forward(a: Cluster, b: Cluster) {
    && a.nodes.Keys == b.nodes.Keys && a.primary == b.primary && a.issued <= b.issued
    && (forall x <- a.nodes :: a.nodes[x].clog <= b.nodes[x].clog && VtimeEarlier(b.nodes[x].f, a.nodes[x].f))
    && (forall id <- a.pulls :: id in b.pulls && (a.pulls[id].Answered? ==> b.pulls[id] == a.pulls[id]))
  }

  lemma GrowsIsForward(a: Cluster, b: Cluster, s: string)
    requires Inv(a) && Inv(b) && Grows(a, b, s)
    ensures Forward(a, b)
  {
    hide Beyond, VtimeEarlier, Inv;
    InvPrefix(a, s);
    InvPrefix(b, s);
    PrefixesOrdered(a.nodes[s].clog, b.nodes[s].clog, Order(b));
    forall x <- a.nodes ensures a.nodes[x].clog <= b.nodes[x].clog && VtimeEarlier(b.nodes[x].f, a.nodes[x].f) {
      if x != s {
        VtimeReflexive(a.nodes[x].f);
      }
    }
  }

  lemma InvPrefix(cl: Cluster, s: string)
    requires Inv(cl) && s in cl.nodes
    ensures cl.primary in cl.nodes && cl.nodes[s].clog <= Order(cl)
  {
    hide ValidStore, PullInv, OrderInv, OwnWritesKnown;
    assert NodeInv(cl.nodes.Keys, Order(cl), cl.issued, cl.nodes[s]);
  }

  lemma PrefixesOrdered(a: seq<Entry>, b: seq<Entry>, order: seq<Entry>)
    requires a <= order && b <= order && |a| <= |b|
    ensures a <= b
  {
  }

  lemma VtimeReflexive(v: VTime)
    ensures VtimeEarlier(v, v)
  {
  }

  lemma NextIsForward(a: Cluster, step: Step, b: Cluster)
    requires Inv(a) && Next(a, step, b)
    ensures Inv(b) && Forward(a, b)
    ensures !step.Write? ==> a.issued == b.issued
  {
    hide Inv, Grows, Transferred, VtimeEarlier;
    NextKeepsInv(a, step, b);
    match step
    case Write(s, ch, ts) =>
      WriteKeepsInv(a, Entry(LogicalTime(s, ts), ch), b);
      GrowsIsForward(a, b, s);
    case Ask(id, src, dst) =>
      SameNodesForward(a, b);
    case Answer(id) =>
      SameNodesForward(a, b);
    case Deliver(id) =>
      DeliverKeepsInv(a, id, b);
      GrowsIsForward(a, b, a.pulls[id].src);
  }

  lemma SameNodesForward(a: Cluster, b: Cluster)
    requires b == a.(pulls := b.pulls)
    requires forall id <- a.pulls :: id in b.pulls && (a.pulls[id].Answered? ==> b.pulls[id] == a.pulls[id])
    ensures Forward(a, b)
  {
  }

  lemma ForwardTransitive(a: Cluster, b: Cluster, c: Cluster)
    requires Forward(a, b) && Forward(b, c)
    ensures Forward(a, c)
  {
    forall x <- a.nodes
      ensures a.nodes[x].clog <= c.nodes[x].clog && VtimeEarlier(c.nodes[x].f, a.nodes[x].f)
    {
      assert VtimeEarlier(b.nodes[x].f, a.nodes[x].f) && VtimeEarlier(c.nodes[x].f, b.nodes[x].f);
    }
  }

  ghost predicate NoWrites(steps: seq<Step>) {
    forall i :: 0 <= i < |steps| ==> !steps[i].Write?
  }

  /** Committed logs and knowledge only grow along a run; no committed write is ever taken back. */
  lemma {:induction false} RunIsForward(states: seq<Cluster>, steps: seq<Step>, i: nat, j: nat)
    requires Run(states, steps) && Inv(states[0]) && i <= j < |states|
    ensures Forward(states[i], states[j]) && Inv(states[j])
    ensures NoWrites(steps) ==> states[i].issued == states[j].issued
    decreases j
  {
    hide Next, Inv;
    RunKeepsInv(states, steps, j);
    if i == j {
      SameNodesForward(states[i], states[i]);
    } else {
      hide Forward;
      RunIsForward(states, steps, i, j - 1);
      NextIsForward(states[j - 1], steps[j - 1], states[j]);
      ForwardTransitive(states[i], states[j - 1], states[j]);
    }
  }

  // ------------------------------------------------------------ convergence

  /** Between positions `lo` and `hi` of the run, `dst` answered a pull of `src` and the answer arrived. */
  ghost predicate Pulled(states: seq<Cluster>, steps: seq<Step>, lo: nat, hi: nat, src: string, dst: string) {
    exists id: nat, j: nat, k: nat ::
      && lo <= j < k < hi <= |steps| < |states|
      && steps[j] == Answer(id) && steps[k] == Deliver(id)
      && id in states[j].pulls && states[j].pulls[id].src == src && states[j].pulls[id].dst == dst
  }

  /** After a pull the asking server covers what the answering server covered. */
  lemma PullTransfers(states: seq<Cluster>, steps: seq<Step>, lo: nat, hi: nat, src: string, dst: string, e: Entry)
    requires Run(states, steps) && Inv(states[0]) && Pulled(states, steps, lo, hi, src, dst)
    requires src in states[lo].nodes && dst in states[lo].nodes && e in states[lo].issued
    ensures src in states[hi].nodes
    ensures LtimeEarlier(states[lo].nodes[dst].f, e.ltime) ==> LtimeEarlier(states[hi].nodes[src].f, e.ltime)
    ensures e in states[lo].nodes[dst].clog ==> e in states[hi].nodes[src].clog
  {
    hide Inv, Run, Transferred, Forward, Next, Pulled;
    var id, j, k := PullOf(states, steps, lo, hi, src, dst);
    RunIsForward(states, steps, lo, j);
    RunIsForward(states, steps, k + 1, hi);
    RunIsForward(states, steps, lo, k);
    RunIsForward(states, steps, lo, k + 1);
    RunIsForward(states, steps, lo, hi);
    ForwardNode(states[lo], states[hi], src, e);
    AnswerDelivered(states, steps, j, k, id);
    TransferOne(states[lo], states[j], states[k], id, states[k + 1], states[hi], src, dst, e);
  }

  lemma PullOf(states: seq<Cluster>, steps: seq<Step>, lo: nat, hi: nat, src: string, dst: string)
    returns (id: nat, j: nat, k: nat)
    requires Pulled(states, steps, lo, hi, src, dst)
    ensures lo <= j < k < hi <= |steps| < |states|
    ensures steps[j] == Answer(id) && steps[k] == Deliver(id)
    ensures id in states[j].pulls && states[j].pulls[id].src == src && states[j].pulls[id].dst == dst
  {
    id, j, k :|
      && lo <= j < k < hi <= |steps| < |states|
      && steps[j] == Answer(id) && steps[k] == Deliver(id)
      && id in states[j].pulls && states[j].pulls[id].src == src && states[j].pulls[id].dst == dst;
  }

  /** A delivered answer carries what the peer held when it answered. */
  lemma AnswerDelivered(states: seq<Cluster>, steps: seq<Step>, j: nat, k: nat, id: nat)
    requires Run(states, steps) && Inv(states[0]) && j < k < |steps| && steps[j] == Answer(id)
    requires steps[k] == Deliver(id)
    requires id in states[j].pulls
    ensures var p := states[j].pulls[id];
            && p.dst in states[j].nodes && id in states[k].pulls
            && states[k].pulls[id] == Answering(p, states[j].nodes[p.dst])
            && p.src in states[k + 1].nodes
            && Transferred(states[k].issued, states[k].pulls[id], states[k + 1].nodes[p.src])
  {
    hide Inv, Transferred, Run;
    RunStep(states, steps, j);
    RunStep(states, steps, k);
    RunIsForward(states, steps, j + 1, k);
    DeliverKeepsInv(states[k], id, states[k + 1]);
  }

  lemma RunStep(states: seq<Cluster>, steps: seq<Step>, i: nat)
    requires Run(states, steps) && i < |steps|
    ensures |states| == |steps| + 1 && Next(states[i], steps[i], states[i + 1])
  {
  }

  lemma TransferOne(lo: Cluster, j: Cluster, k: Cluster, id: nat, k': Cluster, hi: Cluster, src: string, dst: string,
                    e: Entry)
    requires Inv(j) && Inv(k') && Inv(hi) && Forward(lo, j) && Forward(lo, k) && Forward(lo, k') && Forward(k', hi)
    requires src in lo.nodes && dst in lo.nodes && e in lo.issued
    requires id in k.pulls && k.pulls[id].Answered? && k.pulls[id].src == src
    requires k.pulls[id].seenF == j.nodes[dst].f && k.pulls[id].seenC == j.nodes[dst].c
    requires Transferred(k.issued, k.pulls[id], k'.nodes[src])
    ensures LtimeEarlier(lo.nodes[dst].f, e.ltime) ==> LtimeEarlier(hi.nodes[src].f, e.ltime)
    ensures e in lo.nodes[dst].clog ==> e in hi.nodes[src].clog
  {
    hide Inv, Transferred;
    ForwardNode(lo, j, dst, e);
    ForwardNode(k', hi, src, e);
    InvKnowledge(j, dst, e);
    InvKnowledge(k', src, e);
    assert e in k.issued && e in k'.issued && src in k'.nodes;
    TransferredOne(k.issued, k.pulls[id], k'.nodes[src], e);
  }

  lemma ForwardNode(a: Cluster, b: Cluster, x: string, e: Entry)
    requires Forward(a, b) && x in a.nodes
    ensures x in b.nodes
    ensures LtimeEarlier(a.nodes[x].f, e.ltime) ==> LtimeEarlier(b.nodes[x].f, e.ltime)
    ensures e in a.nodes[x].clog ==> e in b.nodes[x].clog
  {
    assert VtimeEarlier(b.nodes[x].f, a.nodes[x].f);
  }

  lemma TransferredOne(issued: set<Entry>, p: Pull, st: Store, e: Entry)
    requires p.Answered? && Transferred(issued, p, st) && e in issued
    ensures LtimeEarlier(p.seenF, e.ltime) ==> LtimeEarlier(st.f, e.ltime)
    ensures LtimeEarlier(p.seenC, e.ltime) ==> LtimeEarlier(st.c, e.ltime)
  {
  }

  /** Once clients stop writing, the primary has pulled from everyone and then everyone from the
      primary, all servers agree on everything and every write is committed. Other exchanges,
      old replies included, may happen in between in any order. */
  lemma Convergence(states: seq<Cluster>, steps: seq<Step>, mid: nat)
    requires Run(states, steps) && Reachable(states[0]) && NoWrites(steps) && mid <= |steps|
    requires forall x <- states[0].nodes | x != states[0].primary :: Pulled(states, steps, 0, mid, states[0].primary, x)
    requires forall x <- states[0].nodes | x != states[0].primary ::
      Pulled(states, steps, mid, |steps|, x, states[0].primary)
    ensures var cl := states[|steps|];
            && cl.issued == states[0].issued
            && (forall s <- cl.nodes ::
                  && cl.nodes[s].tlog == []
                  && (forall e :: e in cl.nodes[s].clog <==> e in cl.issued)
                  && cl.nodes[s].c == cl.nodes[s].f && cl.nodes[s].cst == cl.nodes[s].tst)
            && (forall s, t | s in cl.nodes && t in cl.nodes :: cl.nodes[s] == cl.nodes[t])
  {
    hide Next, Inv, Pulled;
    ReachableInv(states[0]);
    var n := |steps|;
    var p := states[0].primary;
    RunIsForward(states, steps, 0, mid);
    RunIsForward(states, steps, 0, n);
    RunIsForward(states, steps, mid, n);
    PrimaryIsNode(states[0]);
    forall e <- states[0].issued ensures e in states[mid].nodes[p].clog && e in states[n].nodes[p].clog {
      PrimaryHasAll(states, steps, mid, e);
      ForwardNode(states[mid], states[n], p, e);
    }
    forall s <- states[n].nodes, e <- states[n].issued ensures e in states[n].nodes[s].clog {
      if s != p {
        PullTransfers(states, steps, mid, n, s, p, e);
      }
    }
    hide Run, Forward;
    AllSettled(states[n]);
  }

  lemma PrimaryIsNode(cl: Cluster)
    requires Inv(cl)
    ensures cl.primary in cl.nodes
  {
  }

  lemma AllSettled(cl: Cluster)
    requires Inv(cl) && forall s <- cl.nodes, e <- cl.issued :: e in cl.nodes[s].clog
    ensures forall s <- cl.nodes :: Settled(cl.issued, cl.nodes[s])
    ensures forall s, t | s in cl.nodes && t in cl.nodes :: cl.nodes[s] == cl.nodes[t]
  {
    hide Inv;
    PrimaryIsNode(cl);
    forall s <- cl.nodes
      ensures cl.nodes[s].clog == Order(cl) && Settled(cl.issued, cl.nodes[s])
    {
      AllCommitted(cl, s);
    }
    hide Settled;
    forall s, t | s in cl.nodes && t in cl.nodes ensures cl.nodes[s] == cl.nodes[t] {
      SettledEqual(cl, s, t);
    }
  }

  lemma PrimaryHasAll(states: seq<Cluster>, steps: seq<Step>, mid: nat, e: Entry)
    requires Run(states, steps) && Inv(states[0]) && mid <= |steps| && e in states[0].issued
    requires forall x <- states[0].nodes | x != states[0].primary :: Pulled(states, steps, 0, mid, states[0].primary, x)
    ensures states[mid].primary in states[mid].nodes && e in Order(states[mid])
  {
    hide Next, Pulled, ReplyInv, AskInv, ValidStore;
    var p := states[0].primary;
    var s := e.ltime.name;
    assert s in states[0].nodes && OwnWritesKnown(states[0].issued, s, states[0].nodes[s]);
    RunIsForward(states, steps, 0, mid);
    if s != p {
      PullTransfers(states, steps, 0, mid, p, s, e);
    }
    assert LtimeEarlier(states[mid].nodes[p].f, e.ltime);
    InvKnowledge(states[mid], p, e);
  }

  ghost predicate Settled(issued: set<Entry>, st: Store) {
    && st.tlog == [] && (forall e :: e in st.clog <==> e in issued)
    && st.c == st.f && st.cst == st.tst
    && st.c == Cut(st.c.Keys, st.clog) && st.cst == Replay(st.clog)
  }

  /** A server that has committed every write has the primary's log and nothing tentative. */
  lemma AllCommitted(cl: Cluster, s: string)
    requires Inv(cl) && s in cl.nodes && forall e <- cl.issued :: e in cl.nodes[s].clog
    ensures cl.nodes[s].clog == Order(cl) && Settled(cl.issued, cl.nodes[s]) && cl.nodes[s].c.Keys == cl.nodes.Keys
  {
    hide PullInv, OwnWritesKnown;
    var st := cl.nodes[s];
    assert NodeInv(cl.nodes.Keys, Order(cl), cl.issued, st) && OrderInv(cl.nodes.Keys, Order(cl), cl.issued);
    hide Inv;
    NodeAllCommitted(cl.nodes.Keys, Order(cl), cl.issued, st);
  }

  lemma NodeAllCommitted(servers: set<string>, order: seq<Entry>, issued: set<Entry>, st: Store)
    requires NodeInv(servers, order, issued, st) && OrderInv(servers, order, issued)
    requires forall e <- issued :: e in st.clog
    ensures st.clog == order && Settled(issued, st) && st.c.Keys == servers
  {
    hide Sorted, OriginOrdered;
    ChkInvariants(st);
    WholePrefix(order, st.clog);
    EmptyOrMember(st.tlog);
  }

  lemma EmptyOrMember(log: seq<Entry>)
    ensures log == [] || exists e :: e in log
  {
    if log != [] {
      assert log[0] in log;
    }
  }

  lemma NextIsAbsent(order: seq<Entry>, n: nat)
    requires OriginOrdered(order) && n < |order|
    ensures order[n] !in order[..n]
  {
    forall i | 0 <= i < n ensures order[i] != order[n] {
      assert order[i].ltime.name == order[n].ltime.name ==> order[i].ltime.ts < order[n].ltime.ts;
    }
  }

  lemma WholePrefix(order: seq<Entry>, prefix: seq<Entry>)
    requires OriginOrdered(order) && prefix <= order && forall e <- order :: e in prefix
    ensures prefix == order
  {
    hide OriginOrdered;
    assert prefix == order[..|prefix|];
    if |prefix| < |order| {
      NextIsAbsent(order, |prefix|);
    }
  }

  lemma SettledEqual(cl: Cluster, s: string, t: string)
    requires Inv(cl) && s in cl.nodes && t in cl.nodes
    requires Settled(cl.issued, cl.nodes[s]) && Settled(cl.issued, cl.nodes[t])
    requires cl.nodes[s].clog == cl.nodes[t].clog
    ensures cl.nodes[s] == cl.nodes[t]
  {
    NodeKeys(cl.nodes.Keys, Order(cl), cl.issued, cl.nodes[s]);
    NodeKeys(cl.nodes.Keys, Order(cl), cl.issued, cl.nodes[t]);
  }
}
