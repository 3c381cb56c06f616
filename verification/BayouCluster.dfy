/** A cluster of Bayou servers as a transition system, and the invariant of its runs. */
module BayouCluster {
  import opened BayouLog
  import opened BayouStorage

  /** One anti-entropy exchange. `seenC` and `seenF` record the vectors the answering
      server had; the protocol does not send them and no step reads them. */
  datatype Pull =
    | Asked(src: string, dst: string, c: VTime, f: VTime)
    | Answered(src: string, dst: string, c: VTime, f: VTime, reply: Reply, seenC: VTime, seenF: VTime)

  /** `issued` collects every write a client has made anywhere. */
  datatype Cluster = Cluster(
    primary: string, nodes: map<string, Store>, pulls: map<nat, Pull>, issued: set<Entry>)

  datatype Step =
    | Write(server: string, ch: char, ts: int)
    | Ask(id: nat, src: string, dst: string)
    | Answer(id: nat)
    | Deliver(id: nat)

  // ------------------------------------------------------------ steps

  /** A client write: the primary commits it, any other server takes it tentatively. */
  function Written(isPrimary: bool, s: Store, e: Entry): Store {
    if isPrimary then Applied(s, [e], []) else Applied(s, [], [e])
  }

  /** An anti-entropy reply: the primary commits the tentative writes too. */
  function Received(isPrimary: bool, s: Store, commits: seq<Entry>, tentatives: seq<Entry>): Store {
    if isPrimary then Applied(s, commits + tentatives, []) else Applied(s, commits, tentatives)
  }

  function Answering(p: Pull, peer: Store): Pull {
    Answered(p.src, p.dst, p.c, p.f, Missing(peer, p.c, p.f), peer.c, peer.f)
  }

  ghost predicate Init(cl: Cluster) {
    && cl.primary in cl.nodes
    && (forall s <- cl.nodes :: cl.nodes[s] == InitStore(cl.nodes.Keys))
    && cl.pulls == map[]
    && cl.issued == {}
  }

  /** Clocks are positive and each server's clock only moves forward. */
  ghost predicate WriteStep(a: Cluster, e: Entry, b: Cluster) {
    var s := e.ltime.name;
    && s in a.nodes && e.ltime.ts > 0
    && (forall d <- a.issued | d.ltime.name == s :: d.ltime.ts < e.ltime.ts)
    && b == a.(nodes := a.nodes[s := Written(s == a.primary, a.nodes[s], e)], issued := a.issued + {e})
  }

  ghost predicate AskStep(a: Cluster, id: nat, src: string, dst: string, b: Cluster) {
    && id !in a.pulls && src in a.nodes && dst in a.nodes && src != dst
    && b == a.(pulls := a.pulls[id := Asked(src, dst, a.nodes[src].c, a.nodes[src].f)])
  }

  ghost predicate AnswerStep(a: Cluster, id: nat, b: Cluster) {
    && id in a.pulls && a.pulls[id].Asked? && a.pulls[id].dst in a.nodes
    && b == a.(pulls := a.pulls[id := Answering(a.pulls[id], a.nodes[a.pulls[id].dst])])
  }

  /** A reply can be delivered any time after it was made, and even more than once. */
  ghost predicate DeliverStep(a: Cluster, id: nat, b: Cluster) {
    && id in a.pulls && a.pulls[id].Answered? && a.pulls[id].reply.Reply? && a.pulls[id].src in a.nodes
    && var p := a.pulls[id];
       b == a.(nodes := a.nodes[p.src :=
         Received(p.src == a.primary, a.nodes[p.src], p.reply.committed, p.reply.tentative)])
  }

  ghost predicate Next(a: Cluster, step: Step, b: Cluster) {
    match step
    case Write(s, ch, ts) => WriteStep(a, Entry(LogicalTime(s, ts), ch), b)
    case Ask(id, src, dst) => AskStep(a, id, src, dst, b)
    case Answer(id) => AnswerStep(a, id, b)
    case Deliver(id) => DeliverStep(a, id, b)
  }

  /** `states[i]` becomes `states[i + 1]` by `steps[i]`. */
  ghost predicate Run(states: seq<Cluster>, steps: seq<Step>) {
    && |states| == |steps| + 1
    && forall i :: 0 <= i < |steps| ==> Next(states[i], steps[i], states[i + 1])
  }

  // ------------------------------------------------------------ the invariant

  ghost predicate IssuedInv(servers: set<string>, issued: set<Entry>) {
    && (forall e <- issued :: e.ltime.name in servers && e.ltime.ts > 0)
    && (forall d, e | d in issued && e in issued && d.ltime == e.ltime :: d == e)
  }

  /** `order` is the one global order of committed writes: per server in issuing order, and with
      a write everything that server issued before it. */
  ghost predicate OrderInv(servers: set<string>, order: seq<Entry>, issued: set<Entry>) {
    && IssuedInv(servers, issued)
    && OriginOrdered(order)
    && (forall e <- order :: e in issued)
    && (forall e <- issued | LtimeEarlier(Cut(servers, order), e.ltime) :: e in order)
  }

  /** The vector of a list of committed writes. */
  function Cut(servers: set<string>, prefix: seq<Entry>): VTime {
    RaiseAll(NewVector(servers), prefix)
  }

  ghost predicate Knows(s: Store, e: Entry) {
    e in s.clog || e in s.tlog
  }

  /** A server holds a prefix of the order, and exactly the writes its vector covers. */
  ghost predicate NodeInv(servers: set<string>, order: seq<Entry>, issued: set<Entry>, st: Store) {
    && ValidStore(st) && st.c.Keys == servers
    && st.clog <= order
    && (forall e <- st.tlog :: e in issued)
    && (forall e <- issued | LtimeEarlier(st.f, e.ltime) :: Knows(st, e))
  }

  ghost predicate OwnWritesKnown(issued: set<Entry>, name: string, st: Store) {
    forall e <- issued | e.ltime.name == name :: LtimeEarlier(st.f, e.ltime)
  }

  /** The request carries the vectors of a past state of the asking server. */
  ghost predicate AskInv(servers: set<string>, order: seq<Entry>, src: Store, p: Pull) {
    && p.f.Keys == servers
    && VtimeEarlier(src.f, p.f) && VtimeEarlier(p.f, p.c)
    && exists n: nat :: n <= |src.clog| && n <= |order| && p.c == Cut(servers, order[..n])
  }

  /** The committed part of a reply is a piece of the order starting where the asker already is. */
  ghost predicate Piece(order: seq<Entry>, src: Store, commits: seq<Entry>) {
    exists a: nat, b: nat :: a <= b <= |order| && a <= |src.clog| && commits == order[a..b]
  }

  /** A reply lacks nothing: what the answering server knew is in it, or the asker said it knew it. */
  ghost predicate ReplyInv(order: seq<Entry>, issued: set<Entry>, src: Store, dst: Store, p: Pull)
    requires p.Answered?
  {
    && p.reply.Reply?
    && VtimeEarlier(dst.f, p.seenF) && VtimeEarlier(dst.f, p.seenC)
    && Piece(order, src, p.reply.committed)
    && OriginOrdered(p.reply.committed + p.reply.tentative)
    && (forall e <- p.reply.committed + p.reply.tentative :: e in issued && LtimeEarlier(p.seenF, e.ltime))
    && (forall e <- issued | LtimeEarlier(p.seenF, e.ltime) ::
          LtimeEarlier(p.f, e.ltime) || e in p.reply.committed + p.reply.tentative)
    && (forall e <- issued | LtimeEarlier(p.seenC, e.ltime) ::
          LtimeEarlier(p.c, e.ltime) || e in p.reply.committed)
  }

  ghost predicate PullInv(servers: set<string>, order: seq<Entry>, issued: set<Entry>, src: Store, dst: Store,
                          p: Pull)
  {
    && AskInv(servers, order, src, p)
    && (p.Answered? ==> ReplyInv(order, issued, src, dst, p))
  }

  ghost function Order(cl: Cluster): seq<Entry>
    requires cl.primary in cl.nodes
  {
    cl.nodes[cl.primary].clog
  }

  ghost predicate Inv(cl: Cluster) {
    && cl.primary in cl.nodes
    && cl.nodes[cl.primary].tlog == []
    && OrderInv(cl.nodes.Keys, Order(cl), cl.issued)
    && (forall s <- cl.nodes :: NodeInv(cl.nodes.Keys, Order(cl), cl.issued, cl.nodes[s]))
    && (forall s <- cl.nodes :: OwnWritesKnown(cl.issued, s, cl.nodes[s]))
    && (forall id <- cl.pulls :: cl.pulls[id].src in cl.nodes && cl.pulls[id].dst in cl.nodes
          && PullInv(cl.nodes.Keys, Order(cl), cl.issued, cl.nodes[cl.pulls[id].src], cl.nodes[cl.pulls[id].dst],
                     cl.pulls[id]))
  }

  // ------------------------------------------------------------ prefixes of the order and their vectors

  /** The vector of a prefix covers an issued write exactly when the write is in that prefix. */
  lemma CutExact(servers: set<string>, order: seq<Entry>, issued: set<Entry>, n: nat, e: Entry)
    requires OrderInv(servers, order, issued) && n <= |order| && e in issued
    ensures LtimeEarlier(Cut(servers, order[..n]), e.ltime) <==> e in order[..n]
  {
    var zero := NewVector(servers);
    var o := e.ltime.name;
    RaiseAllIsMax(zero, order[..n], o);
    if LtimeEarlier(Cut(servers, order[..n]), e.ltime) {
      var g :| g in order[..n] && g.ltime == LogicalTime(o, Cut(servers, order[..n])[o]);
      var i :| 0 <= i < n && order[i] == g;
      RaiseAllIsMax(zero, order, o);
      var j :| 0 <= j < |order| && order[j] == e;
      assert j <= i;
      assert order[..n][j] == e;
    }
  }

  /** Longer prefixes have later vectors. */
  lemma CutsOrdered(servers: set<string>, order: seq<Entry>, n: nat, m: nat)
    requires n <= m <= |order|
    ensures VtimeEarlier(Cut(servers, order[..m]), Cut(servers, order[..n]))
  {
    assert order[..m] == order[..n] + order[n..m];
    RaiseAllConcat(NewVector(servers), order[..n], order[n..m]);
    RaiseAllMax(Cut(servers, order[..n]), order[n..m]);
  }

  lemma NodeCut(servers: set<string>, order: seq<Entry>, issued: set<Entry>, st: Store)
    requires NodeInv(servers, order, issued, st)
    ensures st.clog == order[..|st.clog|] && st.c == Cut(servers, order[..|st.clog|])
  {
  }

  lemma NodeFacts(servers: set<string>, order: seq<Entry>, issued: set<Entry>, st: Store)
    requires NodeInv(servers, order, issued, st)
    ensures ValidStore(st) && st.c.Keys == st.f.Keys == servers && VtimeEarlier(st.f, st.c)
    ensures st.clog <= order
    ensures (forall e <- st.clog :: e in order && LtimeEarlier(st.c, e.ltime) && LtimeEarlier(st.f, e.ltime))
    ensures Sorted(st.tlog) && forall e <- st.tlog :: e in issued && LtimeEarlier(st.f, e.ltime)
  {
    ChkInvariants(st);
  }

  /** Played at the server, a piece of the order extends its log to the end of the piece. */
  lemma PieceExtends(servers: set<string>, order: seq<Entry>, issued: set<Entry>, n: nat, a: nat, b: nat)
    requires OrderInv(servers, order, issued) && a <= b <= |order| && a <= n <= |order|
    ensures order[..n] + News(Cut(servers, order[..n]), order[a..b]) == order[..if n <= b then b else n]
  {
    var c := Cut(servers, order[..n]);
    var m := if n <= b then n else b;
    NewsIsAfter(c, order[a..b]);
    PieceBeyond(servers, order, issued, n, a, m, b);
    hide *;
    assert order[..n] + order[m..b] == order[..if n <= b then b else n];
  }

  lemma PieceBeyond(servers: set<string>, order: seq<Entry>, issued: set<Entry>, n: nat, a: nat, m: nat, b: nat)
    requires OrderInv(servers, order, issued) && a <= m <= b <= |order| && m <= n <= |order| && (m < b ==> m == n)
    ensures After(Cut(servers, order[..n]), order[a..b]) == order[m..b]
  {
    var c := Cut(servers, order[..n]);
    assert order[a..b] == order[a..m] + order[m..b];
    AfterSplit(c, order[a..m], order[m..b]);
    forall e <- order[a..m] ensures LtimeEarlier(c, e.ltime) {
      assert e in order[..n];
      CutExact(servers, order, issued, n, e);
    }
    AfterNothing(c, order[a..m]);
    forall e <- order[m..b] ensures !LtimeEarlier(c, e.ltime) {
      assert e in order[n..];
      NotInPrefix(order, n, e);
      CutExact(servers, order, issued, n, e);
    }
    AfterEverything(c, order[m..b]);
  }

  lemma NotInPrefix(order: seq<Entry>, n: nat, e: Entry)
    requires OriginOrdered(order) && n <= |order| && e in order[n..]
    ensures e !in order[..n] && e in order
  {
    var i :| n <= i < |order| && order[i] == e;
    forall j | 0 <= j < n ensures order[j] != e {
      assert order[j].ltime.name == order[i].ltime.name ==> order[j].ltime.ts < order[i].ltime.ts;
    }
  }

  // ------------------------------------------------------------ what other servers' steps keep

  /** New writes lie beyond every vector in use. */
  ghost predicate Beyond(issued: set<Entry>, issued': set<Entry>, v: VTime) {
    forall e <- issued' - issued :: !LtimeEarlier(v, e.ltime)
  }

  lemma NodeKept(servers: set<string>, order: seq<Entry>, order': seq<Entry>,
                 issued: set<Entry>, issued': set<Entry>, st: Store)
    requires NodeInv(servers, order, issued, st)
    requires order <= order' && issued <= issued' && Beyond(issued, issued', st.f)
    ensures NodeInv(servers, order', issued', st)
  {
  }

  lemma AskKept(servers: set<string>, order: seq<Entry>, order': seq<Entry>, src: Store, src': Store, p: Pull)
    requires AskInv(servers, order, src, p)
    requires order <= order' && |src.clog| <= |src'.clog| && VtimeEarlier(src'.f, src.f)
    requires servers <= src.f.Keys
    ensures AskInv(servers, order', src', p)
  {
    var n: nat :| n <= |src.clog| && n <= |order| && p.c == Cut(servers, order[..n]);
    assert order[..n] == order'[..n];
  }

  lemma ReplyKept(order: seq<Entry>, order': seq<Entry>, issued: set<Entry>, issued': set<Entry>,
                  src: Store, src': Store, dst: Store, dst': Store, p: Pull)
    requires p.Answered? && ReplyInv(order, issued, src, dst, p)
    requires order <= order' && issued <= issued' && |src.clog| <= |src'.clog|
    requires VtimeEarlier(dst'.f, dst.f) && Beyond(issued, issued', dst.f)
    ensures ReplyInv(order', issued', src', dst', p)
  {
    var a: nat, b: nat :| a <= b <= |order| && a <= |src.clog| && p.reply.committed == order[a..b];
    assert order[a..b] == order'[a..b];
    forall e <- issued' | LtimeEarlier(p.seenF, e.ltime) || LtimeEarlier(p.seenC, e.ltime)
      ensures e in issued
    {
      assert LtimeEarlier(dst.f, e.ltime);
    }
  }

  /** What a step at server `s` does to the cluster. */
  ghost predicate Grows(a: Cluster, b: Cluster, s: string) {
    && a.primary in a.nodes && s in a.nodes && s in b.nodes
    && b == a.(nodes := a.nodes[s := b.nodes[s]], issued := b.issued)
    && a.issued <= b.issued
    && (forall x <- a.nodes :: Beyond(a.issued, b.issued, a.nodes[x].f))
    && (forall e <- b.issued - a.issued :: e.ltime.name == s)
    && Order(a) <= Order(b)
    && |a.nodes[s].clog| <= |b.nodes[s].clog|
    && VtimeEarlier(b.nodes[s].f, a.nodes[s].f)
  }

  lemma GrowsKeepsInv(a: Cluster, b: Cluster, s: string)
    requires Inv(a) && Grows(a, b, s)
    requires OrderInv(b.nodes.Keys, Order(b), b.issued) && b.nodes[b.primary].tlog == []
    requires NodeInv(b.nodes.Keys, Order(b), b.issued, b.nodes[s])
    requires OwnWritesKnown(b.issued, s, b.nodes[s])
    ensures Inv(b)
  {
    hide NodeInv, OrderInv, PullInv, Beyond, VtimeEarlier;
    assert b.nodes.Keys == a.nodes.Keys;
    forall x <- b.nodes
      ensures NodeInv(b.nodes.Keys, Order(b), b.issued, b.nodes[x])
      ensures OwnWritesKnown(b.issued, x, b.nodes[x])
    {
      if x != s {
        NodeKept(a.nodes.Keys, Order(a), Order(b), a.issued, b.issued, a.nodes[x]);
        assert OwnWritesKnown(a.issued, x, a.nodes[x]);
      }
    }
    forall id <- b.pulls
      ensures PullInv(b.nodes.Keys, Order(b), b.issued, b.nodes[b.pulls[id].src], b.nodes[b.pulls[id].dst], b.pulls[id])
    {
      NodeKeys(a.nodes.Keys, Order(a), a.issued, a.nodes[b.pulls[id].src]);
      PullKept(a, b, s, a.pulls[id]);
    }
  }

  lemma NodeKeys(servers: set<string>, order: seq<Entry>, issued: set<Entry>, st: Store)
    requires NodeInv(servers, order, issued, st)
    ensures st.c.Keys == st.f.Keys == servers
  {
  }

  lemma PullKept(a: Cluster, b: Cluster, s: string, p: Pull)
    requires a.primary in a.nodes && Grows(a, b, s) && p.src in a.nodes && p.dst in a.nodes
    requires a.nodes[p.src].f.Keys == a.nodes.Keys
    requires PullInv(a.nodes.Keys, Order(a), a.issued, a.nodes[p.src], a.nodes[p.dst], p)
    ensures PullInv(b.nodes.Keys, Order(b), b.issued, b.nodes[p.src], b.nodes[p.dst], p)
  {
    assert b.nodes.Keys == a.nodes.Keys;
    AskKept(a.nodes.Keys, Order(a), Order(b), a.nodes[p.src], b.nodes[p.src], p);
    if p.Answered? {
      ReplyKept(Order(a), Order(b), a.issued, b.issued, a.nodes[p.src], b.nodes[p.src], a.nodes[p.dst], b.nodes[p.dst],
                p);
    }
  }

  // ------------------------------------------------------------ client writes

  /** No vector has reached a timestamp its server has not issued yet. */
  lemma VectorBehindClock(servers: set<string>, order: seq<Entry>, issued: set<Entry>, st: Store, e: Entry)
    requires NodeInv(servers, order, issued, st) && (forall d <- order :: d in issued)
    requires e.ltime.name in servers && e.ltime.ts > 0
    requires forall d <- issued | d.ltime.name == e.ltime.name :: d.ltime.ts < e.ltime.ts
    ensures !LtimeEarlier(st.f, e.ltime)
  {
    RaiseAllIsMax(NewVector(servers), st.clog, e.ltime.name);
    RaiseAllIsMax(st.c, st.tlog, e.ltime.name);
    assert forall d <- st.clog :: d in order;
  }

  /** A tentative write joins the tentative log and nothing else changes. */
  lemma WriteTentative(servers: set<string>, order: seq<Entry>, issued: set<Entry>, st: Store, e: Entry)
    requires NodeInv(servers, order, issued, st) && OwnWritesKnown(issued, e.ltime.name, st)
    requires e.ltime.name in servers && !LtimeEarlier(st.f, e.ltime)
    ensures var st' := Applied(st, [], [e]);
            && NodeInv(servers, order, issued + {e}, st') && st'.clog == st.clog
            && VtimeEarlier(st'.f, st.f) && LtimeEarlier(st'.f, e.ltime)
  {
    hide ValidStore, Applied;
    StoreNames(st);
    TentativeWrite(st, e);
  }

  /** A write at the primary is committed at once. */
  lemma WriteCommitted(servers: set<string>, issued: set<Entry>, st: Store, e: Entry)
    requires NodeInv(servers, st.clog, issued, st) && OrderInv(servers, st.clog, issued) && st.tlog == []
    requires OwnWritesKnown(issued, e.ltime.name, st)
    requires e.ltime.name in servers && !LtimeEarlier(st.f, e.ltime) && e.ltime.ts > 0
    requires forall d <- issued | d.ltime.name == e.ltime.name :: d.ltime.ts < e.ltime.ts
    ensures var st' := Applied(st, [e], []);
            && NodeInv(servers, st'.clog, issued + {e}, st') && st'.clog == st.clog + [e] && st'.tlog == []
            && VtimeEarlier(st'.f, st.f) && LtimeEarlier(st'.f, e.ltime)
            && OrderInv(servers, st'.clog, issued + {e})
  {
    hide NodeInv;
    var st' := Applied(st, [e], []);
    NodeFacts(servers, st.clog, issued, st);
    CommittedWrite(st, e);
    WriteCovered(servers, st.clog, issued, st, e);
    CommittedNode(servers, st.clog, issued, st, e, st');
  }

  /** After a server's own write its vector covers that write and what it covered before. */
  lemma WriteCovered(servers: set<string>, order: seq<Entry>, issued: set<Entry>, st: Store, e: Entry)
    requires NodeInv(servers, order, issued, st) && OwnWritesKnown(issued, e.ltime.name, st)
    requires e.ltime.name in servers
    ensures forall d <- issued + {e} | LtimeEarlier(Raise(st.f, e.ltime), d.ltime) :: d == e || Knows(st, d)
  {
    hide ValidStore;
    forall d <- issued | LtimeEarlier(Raise(st.f, e.ltime), d.ltime) ensures LtimeEarlier(st.f, d.ltime) {
    }
  }

  lemma CommittedNode(servers: set<string>, order: seq<Entry>, issued: set<Entry>, st: Store, e: Entry, st': Store)
    requires OrderInv(servers, order, issued) && ValidStore(st') && st'.c.Keys == servers && st.clog == order
    requires st.tlog == st'.tlog == [] && st'.clog == order + [e] && st'.c == st'.f == Raise(st.f, e.ltime)
    requires e.ltime.name in servers && e.ltime.ts > 0
    requires forall d <- issued | d.ltime.name == e.ltime.name :: d.ltime.ts < e.ltime.ts
    requires forall d <- issued + {e} | LtimeEarlier(st'.f, d.ltime) :: d == e || Knows(st, d)
    ensures NodeInv(servers, st'.clog, issued + {e}, st') && OrderInv(servers, st'.clog, issued + {e})
  {
    assert OriginOrdered(st'.clog) && st'.c == Cut(servers, st'.clog);
    hide ValidStore, Cut, OriginOrdered, Raise;
  }

  lemma WriteKeepsInv(a: Cluster, e: Entry, b: Cluster)
    requires Inv(a) && WriteStep(a, e, b)
    ensures Inv(b)
    ensures Grows(a, b, e.ltime.name)
  {
    hide NodeInv, OrderInv, PullInv, VtimeEarlier, LtimeEarlier, Applied;
    var s := e.ltime.name;
    var servers := a.nodes.Keys;
    assert b.nodes.Keys == servers;
    WriteNode(a, e, b);
    GrowsKeepsInv(a, b, s);
  }

  lemma OrderIssued(servers: set<string>, order: seq<Entry>, issued: set<Entry>)
    requires OrderInv(servers, order, issued)
    ensures forall d <- order :: d in issued
  {
  }

  lemma WriteNode(a: Cluster, e: Entry, b: Cluster)
    requires Inv(a) && WriteStep(a, e, b)
    ensures Grows(a, b, e.ltime.name)
    ensures OrderInv(b.nodes.Keys, Order(b), b.issued) && b.nodes[b.primary].tlog == []
    ensures NodeInv(b.nodes.Keys, Order(b), b.issued, b.nodes[e.ltime.name])
    ensures OwnWritesKnown(b.issued, e.ltime.name, b.nodes[e.ltime.name])
  {
    hide NodeInv, PullInv, Applied, OrderInv;
    var s := e.ltime.name;
    var servers := a.nodes.Keys;
    assert b.nodes.Keys == servers;
    forall x <- a.nodes ensures Beyond(a.issued, b.issued, a.nodes[x].f) {
      OrderIssued(servers, Order(a), a.issued);
      VectorBehindClock(servers, Order(a), a.issued, a.nodes[x], e);
    }
    OrderIssued(servers, Order(a), a.issued);
    VectorBehindClock(servers, Order(a), a.issued, a.nodes[s], e);
    assert OwnWritesKnown(a.issued, s, a.nodes[s]);
    if s == a.primary {
      WriteCommitted(servers, a.issued, a.nodes[s], e);
    } else {
      WriteTentative(servers, Order(a), a.issued, a.nodes[s], e);
      VectorBehindClock(servers, Order(a), a.issued, a.nodes[a.primary], e);
      OrderBeyond(servers, Order(a), a.issued, a.nodes[a.primary], e);
    }
  }

  lemma OrderBeyond(servers: set<string>, order: seq<Entry>, issued: set<Entry>, primary: Store, e: Entry)
    requires OrderInv(servers, order, issued) && NodeInv(servers, order, issued, primary)
    requires primary.clog == order && primary.tlog == []
    requires e.ltime.name in servers && e.ltime.ts > 0 && !LtimeEarlier(primary.f, e.ltime)
    requires forall d <- issued | d.ltime.name == e.ltime.name :: d.ltime.ts < e.ltime.ts
    ensures OrderInv(servers, order, issued + {e})
  {
    assert primary.f == primary.c == Cut(servers, order);
  }

  // ------------------------------------------------------------ asking and answering

  /** Node invariants and the other pulls do not look at a pull that changes. */
  lemma PullsKeepInv(a: Cluster, b: Cluster, id: nat)
    requires Inv(a) && id in b.pulls && b == a.(pulls := a.pulls[id := b.pulls[id]])
    requires var p := b.pulls[id];
             && p.src in a.nodes && p.dst in a.nodes
             && PullInv(a.nodes.Keys, Order(a), a.issued, a.nodes[p.src], a.nodes[p.dst], p)
    ensures Inv(b)
  {
    hide NodeInv, OrderInv, PullInv, OwnWritesKnown;
  }

  lemma AskKeepsInv(a: Cluster, id: nat, src: string, dst: string, b: Cluster)
    requires Inv(a) && AskStep(a, id, src, dst, b)
    ensures Inv(b)
  {
    NodeCut(a.nodes.Keys, Order(a), a.issued, a.nodes[src]);
    ChkInvariants(a.nodes[src]);
    assert AskInv(a.nodes.Keys, Order(a), a.nodes[src], b.pulls[id]) by {
      assert NodeInv(a.nodes.Keys, Order(a), a.issued, a.nodes[src]);
    }
    PullsKeepInv(a, b, id);
  }

  lemma AnswerKeepsInv(a: Cluster, id: nat, b: Cluster)
    requires Inv(a) && AnswerStep(a, id, b)
    ensures Inv(b)
  {
    var p := a.pulls[id];
    AnswerInv(a.nodes.Keys, Order(a), a.issued, a.nodes[p.src], a.nodes[p.dst], p);
    hide NodeInv, OrderInv, PullInv, Missing;
    PullsKeepInv(a, b, id);
  }

  lemma AnswerInv(servers: set<string>, order: seq<Entry>, issued: set<Entry>, src: Store, dst: Store, p: Pull)
    requires OrderInv(servers, order, issued) && p.Asked?
    requires NodeInv(servers, order, issued, src) && NodeInv(servers, order, issued, dst)
    requires PullInv(servers, order, issued, src, dst, p)
    ensures PullInv(servers, order, issued, src, dst, Answering(p, dst))
  {
    hide NodeInv, ValidStore, Missing, OrderInv, OriginOrdered, After, Cut;
    NodeFacts(servers, order, issued, dst);
    var n: nat :| n <= |src.clog| && n <= |order| && p.c == Cut(servers, order[..n]);
    MissingPiece(servers, order, issued, dst, p, n);
    var m := if n <= |dst.clog| then |dst.clog| else n;
    assert Piece(order, src, order[n..m]);
    MissingOrdered(servers, order, issued, dst, p, n);
    MissingComplete(servers, order, issued, dst, p, n);
  }

  /** Committed vectors of two servers are always comparable, so the request is answered,
      and with exactly the committed piece the asker lacks. */
  lemma MissingPiece(servers: set<string>, order: seq<Entry>, issued: set<Entry>, peer: Store, p: Pull, n: nat)
    requires OrderInv(servers, order, issued) && NodeInv(servers, order, issued, peer)
    requires n <= |order| && p.c == Cut(servers, order[..n])
    ensures Missing(peer, p.c, p.f)
         == Reply(order[n..if n <= |peer.clog| then |peer.clog| else n], After(p.f, peer.tlog))
  {
    var m := |peer.clog|;
    NodeCut(servers, order, issued, peer);
    hide ValidStore;
    assert peer.clog == order[0..m];
    if n <= m {
      CutsOrdered(servers, order, n, m);
      PieceBeyond(servers, order, issued, n, 0, n, m);
    } else {
      CutsOrdered(servers, order, m, n);
      PieceBeyond(servers, order, issued, n, 0, m, m);
      assert order[m..m] == [] == order[n..n];
    }
  }

  /** The reply is in origin order and holds only what the peer knows. */
  lemma MissingOrdered(servers: set<string>, order: seq<Entry>, issued: set<Entry>, peer: Store, p: Pull, n: nat)
    requires OrderInv(servers, order, issued) && NodeInv(servers, order, issued, peer) && n <= |order|
    ensures var commits := order[n..if n <= |peer.clog| then |peer.clog| else n];
            var tentatives := After(p.f, peer.tlog);
            && OriginOrdered(commits + tentatives)
            && forall e <- commits + tentatives :: e in issued && LtimeEarlier(peer.f, e.ltime)
  {
    hide NodeInv, ValidStore;
    NodeFacts(servers, order, issued, peer);
    var m := |peer.clog|;
    var commits := order[n..if n <= m then m else n];
    var tentatives := After(p.f, peer.tlog);
    AfterMembers(p.f, peer.tlog);
    AfterSorted(p.f, peer.tlog);
    hide After, LtimeEarlier;
    SortedIsOriginOrdered(tentatives);
    assert forall e <- commits :: e in peer.clog by {
      assert n <= m ==> commits == peer.clog[n..];
    }
    KnownOrdered(peer, commits, tentatives);
  }

  lemma KnownOrdered(peer: Store, commits: seq<Entry>, tentatives: seq<Entry>)
    requires ValidStore(peer) && OriginOrdered(commits) && OriginOrdered(tentatives)
    requires (forall e <- commits :: e in peer.clog) && (forall e <- tentatives :: e in peer.tlog)
    ensures OriginOrdered(commits + tentatives)
  {
    ChkInvariants(peer);
    hide ValidStore;
    var all := commits + tentatives;
    forall i, j | 0 <= i < j < |all| && all[i].ltime.name == all[j].ltime.name
      ensures all[i].ltime.ts < all[j].ltime.ts
    {
      if i < |commits| <= j {
        assert all[i] in commits && all[j] in tentatives;
        assert all[i] in peer.clog && all[j] in peer.tlog;
      }
    }
  }

  /** What the peer covers is covered by the request or in the reply. */
  lemma MissingComplete(servers: set<string>, order: seq<Entry>, issued: set<Entry>, peer: Store, p: Pull, n: nat)
    requires OrderInv(servers, order, issued) && NodeInv(servers, order, issued, peer)
    requires n <= |order| && p.c == Cut(servers, order[..n]) && VtimeEarlier(p.f, p.c)
    ensures var commits := order[n..if n <= |peer.clog| then |peer.clog| else n];
            && (forall e <- issued | LtimeEarlier(peer.c, e.ltime) :: LtimeEarlier(p.c, e.ltime) || e in commits)
            && (forall e <- issued | LtimeEarlier(peer.f, e.ltime) ::
                  LtimeEarlier(p.f, e.ltime) || e in commits + After(p.f, peer.tlog))
  {
    var m := |peer.clog|;
    var commits := order[n..if n <= m then m else n];
    NodeCut(servers, order, issued, peer);
    AfterMembers(p.f, peer.tlog);
    forall e <- issued
      ensures e in peer.clog || LtimeEarlier(peer.c, e.ltime) ==> LtimeEarlier(p.c, e.ltime) || e in commits
    {
      CutExact(servers, order, issued, m, e);
      CutExact(servers, order, issued, n, e);
      hide *;
      if e in order[..m] {
        SplitPrefix(order, n, m, e);
      }
    }
    hide ValidStore, OrderInv, After, Cut, OriginOrdered;
  }

  lemma SplitPrefix(order: seq<Entry>, n: nat, m: nat, e: Entry)
    requires n <= |order| && m <= |order| && e in order[..m]
    ensures e in order[..n] || e in order[n..if n <= m then m else n]
  {
    var i :| 0 <= i < m && order[i] == e;
    if i < n {
      assert order[..n][i] == e;
    } else {
      assert order[n..m][i - n] == e;
    }
  }

  // ------------------------------------------------------------ delivering

  /** What a pull gives its receiver: everything the answering server covered. */
  ghost predicate Transferred(issued: set<Entry>, p: Pull, st: Store)
    requires p.Answered?
  {
    && (forall e <- issued | LtimeEarlier(p.seenF, e.ltime) :: LtimeEarlier(st.f, e.ltime))
    && (forall e <- issued | LtimeEarlier(p.seenC, e.ltime) :: LtimeEarlier(st.c, e.ltime))
  }

  lemma ReplyNamed(servers: set<string>, order: seq<Entry>, issued: set<Entry>, src: Store, dst: Store, p: Pull)
    requires IssuedInv(servers, issued) && p.Answered? && ReplyInv(order, issued, src, dst, p) && src.c.Keys == servers
    ensures Named(p.reply.committed, src.c) && Named(p.reply.tentative, src.c)
    ensures Named(p.reply.committed + p.reply.tentative, src.c)
    ensures OriginOrdered(p.reply.tentative)
  {
    var all := p.reply.committed + p.reply.tentative;
    assert forall e <- p.reply.committed :: e in all;
    assert forall e <- p.reply.tentative :: e in all;
    forall i, j | 0 <= i < j < |p.reply.tentative| && p.reply.tentative[i].ltime.name == p.reply.tentative[j].ltime.name
      ensures p.reply.tentative[i].ltime.ts < p.reply.tentative[j].ltime.ts
    {
      assert p.reply.tentative[i] == all[|p.reply.committed| + i];
      assert p.reply.tentative[j] == all[|p.reply.committed| + j];
    }
  }

  /** A delivered reply leaves the committed log a prefix of the order, never a shorter one,
      however much the receiver has progressed since it asked. */
  lemma ReceivedLog(servers: set<string>, order: seq<Entry>, issued: set<Entry>, st: Store, dst: Store, p: Pull)
    requires OrderInv(servers, order, issued) && NodeInv(servers, order, issued, st)
    requires p.Answered? && ReplyInv(order, issued, st, dst, p)
    ensures var st' := Applied(st, p.reply.committed, p.reply.tentative);
            && st.clog <= st'.clog <= order
            && forall e <- p.reply.committed :: e in st'.clog
  {
    hide ValidStore, NodeInv, OrderInv, OriginOrdered, RaiseAll, News, After, InsertAll, Replay;
    var n := |st.clog|;
    var a: nat, b: nat :| a <= b <= |order| && a <= n && p.reply.committed == order[a..b];
    NodeFacts(servers, order, issued, st);
    NodeCut(servers, order, issued, st);
    PieceExtends(servers, order, issued, n, a, b);
    forall e <- order[a..b] ensures e in order[..if n <= b then b else n] {
      SplitPrefix(order, 0, b, e);
    }
  }

  /** Every issued write the new vector covers is in one of the two logs. */
  lemma ReceivedKnows(servers: set<string>, order: seq<Entry>, issued: set<Entry>, st: Store, dst: Store, p: Pull,
                      e: Entry)
    requires OrderInv(servers, order, issued) && NodeInv(servers, order, issued, st)
    requires AskInv(servers, order, st, p) && p.Answered? && ReplyInv(order, issued, st, dst, p)
    requires e in issued && LtimeEarlier(Applied(st, p.reply.committed, p.reply.tentative).f, e.ltime)
    ensures Knows(Applied(st, p.reply.committed, p.reply.tentative), e)
  {
    hide ValidStore, NodeInv, OrderInv, OriginOrdered, RaiseAll, News, After, InsertAll, Replay, Cut, Piece;
    var commits, tentatives := p.reply.committed, p.reply.tentative;
    var st' := Applied(st, commits, tentatives);
    var f := RaiseAll(st.f, commits);
    NodeFacts(servers, order, issued, st);
    assert IssuedInv(servers, issued) by {
      IssuedOf(servers, order, issued);
    }
    ReplyNamed(servers, order, issued, st, dst, p);
    AppliedTentatives(st, commits, tentatives);
    ReceivedLog(servers, order, issued, st, dst, p);
    AfterMembers(st'.c, st.tlog);
    NewsIsAfter(f, tentatives);
    AfterMembers(f, tentatives);
    RaiseAllIsMax(st.f, commits, e.ltime.name);
    RaiseAllIsMax(st.c, commits, e.ltime.name);
    RaiseAllIsMax(f, tentatives, e.ltime.name);
    ReceivedCommitted(servers, order, issued, st, dst, p, e);
    if LtimeEarlier(st.f, e.ltime) {
      ReceivedKnown(servers, order, issued, st, e);
    }
  }

  lemma IssuedOf(servers: set<string>, order: seq<Entry>, issued: set<Entry>)
    requires OrderInv(servers, order, issued)
    ensures IssuedInv(servers, issued)
  {
  }

  lemma ReceivedKnown(servers: set<string>, order: seq<Entry>, issued: set<Entry>, st: Store, e: Entry)
    requires NodeInv(servers, order, issued, st) && e in issued && LtimeEarlier(st.f, e.ltime)
    ensures Knows(st, e)
  {
  }

  /** The new committed vector covers an issued write exactly when the write is committed. */
  lemma ReceivedCommitted(servers: set<string>, order: seq<Entry>, issued: set<Entry>, st: Store, dst: Store, p: Pull,
                          e: Entry)
    requires OrderInv(servers, order, issued) && NodeInv(servers, order, issued, st)
    requires p.Answered? && ReplyInv(order, issued, st, dst, p) && e in issued
    ensures var st' := Applied(st, p.reply.committed, p.reply.tentative);
            LtimeEarlier(st'.c, e.ltime) <==> e in st'.clog
  {
    hide NodeInv, OrderInv, OriginOrdered, News, After, InsertAll, Replay, Piece;
    var st' := Applied(st, p.reply.committed, p.reply.tentative);
    NodeFacts(servers, order, issued, st);
    IssuedOf(servers, order, issued);
    ReplyNamed(servers, order, issued, st, dst, p);
    AppliedValid(st, p.reply.committed, p.reply.tentative);
    ReceivedLog(servers, order, issued, st, dst, p);
    assert st'.clog == order[..|st'.clog|] && st'.c == Cut(servers, st'.clog);
    CutExact(servers, order, issued, |st'.clog|, e);
  }

  /** Delivery at a server other than the primary. */
  lemma ReceiveAtSecondary(servers: set<string>, order: seq<Entry>, issued: set<Entry>, st: Store, dst: Store, p: Pull)
    requires OrderInv(servers, order, issued) && NodeInv(servers, order, issued, st)
    requires AskInv(servers, order, st, p) && p.Answered? && ReplyInv(order, issued, st, dst, p)
    ensures var st' := Applied(st, p.reply.committed, p.reply.tentative);
            && NodeInv(servers, order, issued, st')
            && st.clog <= st'.clog && VtimeEarlier(st'.f, st.f)
            && Transferred(issued, p, st')
  {
    hide NodeInv, ValidStore, OrderInv, IssuedInv, AskInv, Applied, OriginOrdered, Piece, LtimeEarlier;
    var commits, tentatives := p.reply.committed, p.reply.tentative;
    var st' := Applied(st, commits, tentatives);
    NodeFacts(servers, order, issued, st);
    IssuedOf(servers, order, issued);
    ReplyNamed(servers, order, issued, st, dst, p);
    ReceivedNode(servers, order, issued, st, dst, p);
    ReceivedLog(servers, order, issued, st, dst, p);
    AskBehind(servers, order, issued, st, p);
    ReceivedTransfers(servers, order, issued, st, dst, p, st', commits, tentatives);
  }

  lemma AskBehind(servers: set<string>, order: seq<Entry>, issued: set<Entry>, st: Store, p: Pull)
    requires NodeInv(servers, order, issued, st) && AskInv(servers, order, st, p)
    ensures VtimeEarlier(st.c, p.c) && VtimeEarlier(st.f, p.f) && p.c.Keys == servers
  {
    hide ValidStore;
    var n: nat :| n <= |st.clog| && n <= |order| && p.c == Cut(servers, order[..n]);
    NodeCut(servers, order, issued, st);
    CutsOrdered(servers, order, n, |st.clog|);
  }

  lemma ReceivedNode(servers: set<string>, order: seq<Entry>, issued: set<Entry>, st: Store, dst: Store, p: Pull)
    requires OrderInv(servers, order, issued) && NodeInv(servers, order, issued, st)
    requires AskInv(servers, order, st, p) && p.Answered? && ReplyInv(order, issued, st, dst, p)
    ensures NodeInv(servers, order, issued, Applied(st, p.reply.committed, p.reply.tentative))
  {
    hide ValidStore, OrderInv, AskInv, OriginOrdered, News, After, InsertAll, Replay, Piece;
    var commits, tentatives := p.reply.committed, p.reply.tentative;
    var st' := Applied(st, commits, tentatives);
    NodeFacts(servers, order, issued, st);
    IssuedOf(servers, order, issued);
    ReplyNamed(servers, order, issued, st, dst, p);
    AppliedValid(st, commits, tentatives);
    AppliedTentatives(st, commits, tentatives);
    AfterMembers(st'.c, st.tlog);
    NewsMembers(RaiseAll(st.f, commits), tentatives);
    ReceivedLog(servers, order, issued, st, dst, p);
    forall e <- issued | LtimeEarlier(st'.f, e.ltime) ensures Knows(st', e) {
      ReceivedKnows(servers, order, issued, st, dst, p, e);
    }
  }

  lemma ReceivedTransfers(servers: set<string>, order: seq<Entry>, issued: set<Entry>, st: Store, dst: Store, p: Pull,
                          st': Store, commits: seq<Entry>, tentatives: seq<Entry>)
    requires IssuedInv(servers, issued) && st.c.Keys == st.f.Keys == servers
    requires VtimeEarlier(st.f, p.f) && VtimeEarlier(st.c, p.c) && p.Answered? && ReplyInv(order, issued, st, dst, p)
    requires st' == Applied(st, commits, tentatives)
    requires forall e <- p.reply.committed :: e in commits
    requires forall e <- p.reply.tentative :: e in commits || e in tentatives
    ensures Transferred(issued, p, st') && VtimeEarlier(st'.f, st.f)
  {
    hide News, InsertAll, Replay, Piece, After, OriginOrdered;
    RaiseAllMax(st.f, commits);
    RaiseAllMax(RaiseAll(st.f, commits), tentatives);
    RaiseAllMax(st.c, commits);
  }

  /** Delivery at the primary commits everything in the reply it did not know. */
  lemma ReceiveAtPrimary(servers: set<string>, issued: set<Entry>, st: Store, dst: Store, p: Pull)
    requires OrderInv(servers, st.clog, issued) && NodeInv(servers, st.clog, issued, st) && st.tlog == []
    requires AskInv(servers, st.clog, st, p) && p.Answered? && ReplyInv(st.clog, issued, st, dst, p)
    ensures var st' := Applied(st, p.reply.committed + p.reply.tentative, []);
            && OrderInv(servers, st'.clog, issued) && NodeInv(servers, st'.clog, issued, st') && st'.tlog == []
            && st.clog <= st'.clog && VtimeEarlier(st'.f, st.f)
            && Transferred(issued, p, st')
  {
    hide ValidStore, AskInv, OriginOrdered, News, InsertAll, Replay, Piece, RaiseAll, After;
    var all := p.reply.committed + p.reply.tentative;
    var st' := Applied(st, all, []);
    NodeFacts(servers, st.clog, issued, st);
    ReplyNamed(servers, st.clog, issued, st, dst, p);
    PrimaryApplied(st, all);
    NewsMembers(st.c, all);
    AskBehind(servers, st.clog, issued, st, p);
    ReceivedTransfers(servers, st.clog, issued, st, dst, p, st', all, []);
    forall e <- issued | LtimeEarlier(st'.f, e.ltime) ensures e in st'.clog {
      PrimaryKnows(servers, issued, st, dst, p, e);
    }
  }

  /** Without tentative writes, applying a list of commits leaves none. */
  lemma PrimaryApplied(st: Store, all: seq<Entry>)
    requires ValidStore(st) && st.tlog == [] && Named(all, st.c)
    ensures var st' := Applied(st, all, []);
            && ValidStore(st') && st'.tlog == [] && st'.f == st'.c && st'.c.Keys == st.c.Keys
            && OriginOrdered(st'.clog) && st'.c == Cut(st.c.Keys, st'.clog)
  {
    AppliedValid(st, all, []);
  }

  lemma PrimaryKnows(servers: set<string>, issued: set<Entry>, st: Store, dst: Store, p: Pull, e: Entry)
    requires OrderInv(servers, st.clog, issued) && NodeInv(servers, st.clog, issued, st) && st.tlog == []
    requires AskInv(servers, st.clog, st, p) && p.Answered? && ReplyInv(st.clog, issued, st, dst, p)
    requires var st' := Applied(st, p.reply.committed + p.reply.tentative, []);
             e in issued && LtimeEarlier(st'.f, e.ltime)
    ensures e in Applied(st, p.reply.committed + p.reply.tentative, []).clog
  {
    hide ValidStore, OrderInv, OriginOrdered, News, InsertAll, Replay, Piece, After;
    var all := p.reply.committed + p.reply.tentative;
    var st' := Applied(st, all, []);
    NodeFacts(servers, st.clog, issued, st);
    RaiseAllIsMax(st.f, all, e.ltime.name);
    if LtimeEarlier(st.f, e.ltime) {
      ReceivedKnown(servers, st.clog, issued, st, e);
    } else {
      assert e in all;
      NewsIsAfter(st.c, all);
      AfterMembers(st.c, all);
      assert e in News(st.c, all);
    }
  }

  lemma DeliverNode(a: Cluster, id: nat, b: Cluster)
    requires Inv(a) && DeliverStep(a, id, b)
    ensures var s := a.pulls[id].src;
            && Grows(a, b, s)
            && OrderInv(b.nodes.Keys, Order(b), b.issued) && b.nodes[b.primary].tlog == []
            && NodeInv(b.nodes.Keys, Order(b), b.issued, b.nodes[s])
            && OwnWritesKnown(b.issued, s, b.nodes[s])
            && Transferred(a.issued, a.pulls[id], b.nodes[s])
  {
    hide NodeInv, OrderInv, ReplyInv, AskInv, Applied;
    var p := a.pulls[id];
    var servers := a.nodes.Keys;
    assert b.nodes.Keys == servers;
    assert PullInv(servers, Order(a), a.issued, a.nodes[p.src], a.nodes[p.dst], p);
    if p.src == a.primary {
      ReceiveAtPrimary(servers, a.issued, a.nodes[p.src], a.nodes[p.dst], p);
    } else {
      ReceiveAtSecondary(servers, Order(a), a.issued, a.nodes[p.src], a.nodes[p.dst], p);
    }
    NodeKeys(servers, Order(a), a.issued, a.nodes[p.src]);
    assert OwnWritesKnown(a.issued, p.src, a.nodes[p.src]);
    OwnKept(a.issued, p.src, a.nodes[p.src], b.nodes[p.src]);
  }

  lemma OwnKept(issued: set<Entry>, name: string, st: Store, st': Store)
    requires OwnWritesKnown(issued, name, st) && VtimeEarlier(st'.f, st.f)
    ensures OwnWritesKnown(issued, name, st')
  {
  }

  lemma DeliverKeepsInv(a: Cluster, id: nat, b: Cluster)
    requires Inv(a) && DeliverStep(a, id, b)
    ensures Inv(b) && Grows(a, b, a.pulls[id].src)
    ensures Transferred(a.issued, a.pulls[id], b.nodes[a.pulls[id].src])
  {
    DeliverNode(a, id, b);
    hide NodeInv, OrderInv, ReplyInv, AskInv, Applied, Transferred, VtimeEarlier, OwnWritesKnown;
    GrowsKeepsInv(a, b, a.pulls[id].src);
  }

  // ------------------------------------------------------------ runs

  lemma NextKeepsInv(a: Cluster, step: Step, b: Cluster)
    requires Inv(a) && Next(a, step, b)
    ensures Inv(b)
  {
    hide Inv;
    match step
    case Write(s, ch, ts) => WriteKeepsInv(a, Entry(LogicalTime(s, ts), ch), b);
    case Ask(id, src, dst) => AskKeepsInv(a, id, src, dst, b);
    case Answer(id) => AnswerKeepsInv(a, id, b);
    case Deliver(id) => DeliverKeepsInv(a, id, b);
  }

  lemma InitInv(cl: Cluster)
    requires Init(cl)
    ensures Inv(cl)
  {
    InitValid(cl.nodes.Keys);
  }

  lemma {:induction false} RunKeepsInv(states: seq<Cluster>, steps: seq<Step>, i: nat)
    requires Run(states, steps) && Inv(states[0]) && i < |states|
    ensures Inv(states[i])
  {
    hide Inv, Next;
    if i > 0 {
      RunKeepsInv(states, steps, i - 1);
      NextKeepsInv(states[i - 1], steps[i - 1], states[i]);
    }
  }
}
