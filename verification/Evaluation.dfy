/** The evaluation script's traversal of the graph of tests: a test runs only if some test it depends on scored. */
module Evaluation {
  import opened Lists


  /** Each test with the tests that it gates. */
  type Graph = map<string, seq<string>>

  const ROOT := "none"

  /** The graph lists every test it mentions, and the first one. */
  ghost predicate Closed(graph: Graph) {
    ROOT in graph && forall node, child :: node in graph && child in graph[node] ==> child in graph
  }

  /** `child` may run once `node` has scored. */
  ghost predicate Opens(graph: Graph, score: string -> real, node: string, child: string) {
    node in graph && score(node) != 0.0 && child in graph[node]
  }

  /** A path from the first test on which every test but the last has scored; -1 counts as a score. */
  ghost predicate Path(graph: Graph, score: string -> real, path: seq<string>) {
    && path != [] && path[0] == ROOT
    && forall i :: 0 <= i < |path| - 1 ==> Opens(graph, score, path[i], path[i + 1])
  }

  ghost predicate Reached(graph: Graph, score: string -> real, node: string) {
    exists path :: Path(graph, score, path) && path[|path| - 1] == node
  }

  lemma RootReached(graph: Graph, score: string -> real)
    ensures Reached(graph, score, ROOT)
  {
    assert Path(graph, score, [ROOT]);
  }

  lemma ChildReached(graph: Graph, score: string -> real, node: string, child: string)
    requires Reached(graph, score, node) && Opens(graph, score, node, child)
    ensures Reached(graph, score, child)
  {
    var path :| Path(graph, score, path) && path[|path| - 1] == node;
    assert Path(graph, score, path + [child]);
  }

  /** A set that holds the first test and is closed under opening holds every reached test. */
  lemma {:induction false} ReachedWithin(graph: Graph, score: string -> real, path: seq<string>, done: set<string>)
    requires Path(graph, score, path) && ROOT in done
    requires forall node, child :: node in done && Opens(graph, score, node, child) ==> child in done
    ensures path[|path| - 1] in done
  {
    if 1 < |path| {
      var n := |path| - 1;
      ReachedWithin(graph, score, path[..n], done);
      assert Opens(graph, score, path[n - 1], path[n - 1 + 1]);
    }
  }

  /** The tests were run one after the other, each once, each after a test that opens it. */
  ghost predicate Gated(graph: Graph, score: string -> real, ran: seq<string>) {
    && (ran != [] ==> ran[0] == ROOT)
    && (forall i, j :: 0 <= i < j < |ran| ==> ran[i] != ran[j])
    && (forall i :: 0 < i < |ran| ==> OpenedBy(graph, score, ran[..i], ran[i]))
  }

  ghost predicate OpenedBy(graph: Graph, score: string -> real, ran: seq<string>, node: string) {
    exists j :: 0 <= j < |ran| && Opens(graph, score, ran[j], node)
  }

  ghost predicate Queued(graph: Graph, score: string -> real, ran: seq<string>, node: string) {
    node in graph && Reached(graph, score, node)
      && if ran == [] then node == ROOT else OpenedBy(graph, score, ran, node)
  }

  lemma QueuedLater(graph: Graph, score: string -> real, ran: seq<string>, node: string, queue: seq<string>)
    requires forall q :: q in queue ==> Queued(graph, score, ran, q)
    requires ran == [] ==> queue == []
    ensures forall q :: q in queue ==> Queued(graph, score, ran + [node], q)
  {
    forall q | q in queue ensures Queued(graph, score, ran + [node], q) {
      assert Queued(graph, score, ran, q);
      var j :| 0 <= j < |ran| && Opens(graph, score, ran[j], q);
      assert Opens(graph, score, (ran + [node])[j], q);
    }
  }

  lemma GatedAppend(graph: Graph, score: string -> real, ran: seq<string>, node: string)
    requires Gated(graph, score, ran) && Queued(graph, score, ran, node) && node !in ran
    ensures Gated(graph, score, ran + [node])
  {
    var next := ran + [node];
    forall i | 0 < i < |next| ensures OpenedBy(graph, score, next[..i], next[i]) {
      assert next[..i] == if i < |ran| then ran[..i] else ran;
    }
  }

  /** What is left to do when `ran` has been run: everything that it opens waits in the queue. */
  ghost predicate Frontier(graph: Graph, score: string -> real, ran: seq<string>, queue: seq<string>) {
    && (ROOT in ran || ROOT in queue)
    && (forall node, child :: node in ran && Opens(graph, score, node, child) ==> child in ran || child in queue)
  }

  /** The state of the loop. */
  ghost predicate Loop(graph: Graph, score: string -> real, ran: seq<string>, queue: seq<string>) {
    && Frontier(graph, score, ran, queue) && Gated(graph, score, ran)
    && (forall q :: q in queue ==> Queued(graph, score, ran, q))
    && (forall node :: node in ran ==> node in graph && Reached(graph, score, node))
    && (ran == [] ==> queue == [ROOT])
  }

  /** The children that have not been run, as they are put in the queue. */
  function Missing(children: seq<string>, ran: seq<string>): (m: seq<string>)
    ensures forall c :: c in m <==> c in children && c !in ran
  {
    if children == [] then []
    else
      var last := children[|children| - 1];
      Missing(children[..|children| - 1], ran) + if last in ran then [] else [last]
  }

  // ------------------------------------------------------------ the order of the tests

  /** The children of the scoring tests among `ran`, test by test, in the order of the graph's lists. */
  function Children(graph: Graph, score: string -> real, ran: seq<string>): seq<string> {
    if ran == [] then []
    else
      var last := ran[|ran| - 1];
      Children(graph, score, ran[..|ran| - 1]) + if last in graph && score(last) != 0.0 then graph[last] else []
  }

  /** Breadth first: the tests run in the order in which the script and then the scoring tests name them first. */
  ghost predicate BreadthFirst(graph: Graph, score: string -> real, ran: seq<string>) {
    ran == Firsts([ROOT] + Children(graph, score, ran))
  }

  /** The test at `q` scored, and child `b` of its list is `child`. */
  ghost predicate Names(graph: Graph, score: string -> real, ran: seq<string>, q: nat, b: nat, child: string) {
    q < |ran| && ran[q] in graph && score(ran[q]) != 0.0 && b < |graph[ran[q]]| && graph[ran[q]][b] == child
  }

  lemma {:induction false} ChildrenAt(graph: Graph, score: string -> real, ran: seq<string>, q: nat, b: nat)
    requires q < |ran| && ran[q] in graph && b < |graph[ran[q]]| && score(ran[q]) != 0.0
    ensures
      var list, before := Children(graph, score, ran), Children(graph, score, ran[..q]) + graph[ran[q]][..b];
      before + [graph[ran[q]][b]] <= list
  {
    var n := |ran| - 1;
    if q < n {
      assert ran[..n][..q] == ran[..q];
      ChildrenAt(graph, score, ran[..n], q, b);
    }
  }

  lemma {:induction false} NamedBy(graph: Graph, score: string -> real, ran: seq<string>, child: string)
    returns (p: nat, a: nat)
    requires child in Children(graph, score, ran)
    ensures Names(graph, score, ran, p, a, child)
  {
    var n := |ran| - 1;
    if child in Children(graph, score, ran[..n]) {
      p, a := NamedBy(graph, score, ran[..n], child);
    } else {
      p := n;
      a :| 0 <= a < |graph[ran[n]]| && graph[ran[n]][a] == child;
    }
  }

  /**
   * The order by positions: of two tests, the one that runs first is named by an earlier test than the other, or
   * earlier in the list of the same test.
   */
  lemma BreadthFirstPlaces(graph: Graph, score: string -> real, ran: seq<string>, i: nat, j: nat, q: nat, b: nat)
    returns (p: nat, a: nat)
    requires BreadthFirst(graph, score, ran) && 0 < i < j < |ran| && Names(graph, score, ran, q, b, ran[j])
    ensures Names(graph, score, ran, p, a, ran[i]) && (p < q || (p == q && a < b))
  {
    hide Children, Firsts;
    var list := [ROOT] + Children(graph, score, ran);
    var before := Children(graph, score, ran[..q]) + graph[ran[q]][..b];
    FirstsInOrder(list);
    ChildrenAt(graph, score, ran, q, b);
    assert list[..1 + |before|] == [ROOT] + before && list[1 + |before|] == ran[j];
    RootFirst(ran, list);
    assert ran[i] in before;
    if ran[i] in Children(graph, score, ran[..q]) {
      p, a := NamedBy(graph, score, ran[..q], ran[i]);
    } else {
      p := q;
      a :| 0 <= a < b && graph[ran[q]][a] == ran[i];
    }
  }

  lemma RootFirst(ran: seq<string>, list: seq<string>)
    requires ran == Firsts(list) && list != []
    ensures ran != [] && ran[0] == list[0]
    ensures forall i :: 0 < i < |ran| ==> ran[i] != list[0]
  {
    hide Firsts;
    FirstsInOrder(list);
    assert list[0] in ran && list[..0] == [];
  }

  /** `seen` has left the queue so far: the tests that were run, with repetitions. */
  ghost predicate InTurn(graph: Graph, score: string -> real, ran: seq<string>, seen: seq<string>, queue: seq<string>) {
    ran == Firsts(seen) && Firsts(seen + queue) == Firsts([ROOT] + Children(graph, score, ran))
  }

  lemma FirstInTurn(graph: Graph, score: string -> real)
    ensures InTurn(graph, score, [], [], [ROOT])
  {
    assert [] + [ROOT] == [ROOT] + [];
  }

  lemma LastInTurn(graph: Graph, score: string -> real, ran: seq<string>, seen: seq<string>)
    requires InTurn(graph, score, ran, seen, [])
    ensures BreadthFirst(graph, score, ran)
  {
    assert seen + [] == seen;
  }

  /** Whether a child that has been run joins the queue again makes no difference to the order. */
  lemma {:induction false} MissingInTurn(a: seq<string>, b: seq<string>, children: seq<string>, ran: seq<string>)
    requires Firsts(a) == Firsts(b) && forall node :: node in ran ==> node in a
    ensures Firsts(a + Missing(children, ran)) == Firsts(b + children)
  {
    hide Firsts;
    if children == [] {
      assert a + [] == a && b + [] == b;
    } else {
      var init, last := children[..|children| - 1], children[|children| - 1];
      MissingInTurn(a, b, init, ran);
      FirstsAfter(a + Missing(init, ran), b + init, last);
      assert b + children == b + init + [last];
      assert last in ran ==> a + Missing(children, ran) == a + Missing(init, ran);
      assert last !in ran ==> a + Missing(children, ran) == a + Missing(init, ran) + [last];
    }
  }

  lemma SkippedInTurn(graph: Graph, score: string -> real, ran: seq<string>, seen: seq<string>, node: string,
                      queue: seq<string>)
    requires InTurn(graph, score, ran, seen, [node] + queue) && node in ran
    ensures InTurn(graph, score, ran, seen + [node], queue)
  {
    hide Children;
    FirstsInOrder(seen);
    FirstsAfter(seen, seen, node);
    assert seen + [node] + queue == seen + ([node] + queue);
  }

  lemma NewInTurn(ran: seq<string>, seen: seq<string>, node: string)
    requires ran == Firsts(seen) && node !in ran
    ensures Firsts(seen + [node]) == ran + [node]
  {
    assert (seen + [node])[..|seen|] == seen;
  }

  lemma ChildrenNext(graph: Graph, score: string -> real, ran: seq<string>, node: string)
    requires node in graph
    ensures Children(graph, score, ran + [node])
         == Children(graph, score, ran) + if score(node) == 0.0 then [] else graph[node]
  {
    assert (ran + [node])[..|ran|] == ran;
  }

  lemma RanInTurn(graph: Graph, score: string -> real, ran: seq<string>, seen: seq<string>, node: string,
                  queue: seq<string>)
    requires InTurn(graph, score, ran, seen, [node] + queue) && node !in ran && node in graph
    ensures score(node) == 0.0 ==> InTurn(graph, score, ran + [node], seen + [node], queue)
    ensures score(node) != 0.0 ==>
      InTurn(graph, score, ran + [node], seen + [node], queue + Missing(graph[node], ran + [node]))
  {
    hide Firsts, Children, Missing;
    NewInTurn(ran, seen, node);
    ChildrenNext(graph, score, ran, node);
    var next, list, met := ran + [node], [ROOT] + Children(graph, score, ran), seen + [node] + queue;
    assert met == seen + ([node] + queue);
    if score(node) == 0.0 {
      assert Children(graph, score, ran) + [] == Children(graph, score, ran);
    } else {
      FirstsInOrder(seen);
      MissingInTurn(met, list, graph[node], next);
      assert list + graph[node] == [ROOT] + Children(graph, score, next);
      assert met + Missing(graph[node], next) == seen + [node] + (queue + Missing(graph[node], next));
    }
  }

  lemma FirstIsRoot(graph: Graph, score: string -> real, ran: seq<string>)
    requires BreadthFirst(graph, score, ran)
    ensures ran != [] && ran[0] == ROOT
  {
    RootFirst(ran, [ROOT] + Children(graph, score, ran));
  }

  // ------------------------------------------------------------ the loop

  /** The results are those of the tests that ran. */
  ghost predicate Scores(results: map<string, real>, ran: seq<string>, score: string -> real) {
    (forall node :: node in results <==> node in ran)
      && (forall node :: node in results ==> results[node] == score(node))
  }

  /**
   * The script's loop. It ends, runs every test at most once and breadth first, and runs a test exactly when a path of
   * scoring tests leads to it. `ran` lists the keys of `results` in insertion order.
   */
  method Grade(graph: Graph, score: string -> real) returns (ran: seq<string>, results: map<string, real>)
    requires Closed(graph)
    ensures ran != [] && ran[0] == "none"
    ensures forall node :: node in ran <==> Reached(graph, score, node)
    ensures Gated(graph, score, ran) && BreadthFirst(graph, score, ran)
    ensures Scores(results, ran, score)
  {
    hide Loop, Reached, Gated, InTurn, BreadthFirst;
    ran, results := [], map[];
    var queue := [ROOT];
    ghost var seen := [];
    Start(graph, score);
    FirstInTurn(graph, score);
    while queue != []
      invariant Loop(graph, score, ran, queue) && InTurn(graph, score, ran, seen, queue)
      invariant Scores(results, ran, score)
      decreases graph.Keys - results.Keys, |queue|
    {
      var node := queue[0];
      assert queue == [node] + queue[1..];
      queue := queue[1..];
      ghost var untried := graph.Keys - results.Keys;
      if node in results {
        Skipped(graph, score, ran, node, queue);
        SkippedInTurn(graph, score, ran, seen, node, queue);
        seen := seen + [node];
        continue;
      }
      Ran(graph, score, ran, node, queue);
      RanInTurn(graph, score, ran, seen, node, queue);
      seen := seen + [node];
      ran := ran + [node];
      results := results[node := score(node)];
      assert node in untried && node !in graph.Keys - results.Keys;
      if score(node) == 0.0 {
        continue;
      }
      queue := Enqueued(queue, graph[node], results, ran);
    }
    Finished(graph, score, ran);
    LastInTurn(graph, score, ran, seen);
    FirstIsRoot(graph, score, ran);
  }

  /** The inner loop: children without a result join the queue. */
  method Enqueued(queue: seq<string>, children: seq<string>, results: map<string, real>, ghost ran: seq<string>)
    returns (longer: seq<string>)
    requires forall node :: node in results <==> node in ran
    ensures longer == queue + Missing(children, ran)
  {
    hide Missing;
    longer := queue;
    MissingNone(children, ran);
    for i := 0 to |children|
      invariant longer == queue + Missing(children[..i], ran)
    {
      MissingNext(children, ran, i);
      if children[i] !in results {
        longer := longer + [children[i]];
      }
    }
    assert children[..|children|] == children;
  }

  lemma MissingNone(children: seq<string>, ran: seq<string>)
    ensures Missing(children[..0], ran) == []
  {
  }

  lemma MissingNext(children: seq<string>, ran: seq<string>, i: nat)
    requires i < |children|
    ensures Missing(children[..i + 1], ran)
         == Missing(children[..i], ran) + if children[i] in ran then [] else [children[i]]
  {
    assert children[..i + 1][..i] == children[..i];
  }

  lemma Start(graph: Graph, score: string -> real)
    requires Closed(graph)
    ensures Loop(graph, score, [], [ROOT])
  {
    RootReached(graph, score);
  }

  /** A test that has been run already leaves the queue. */
  lemma Skipped(graph: Graph, score: string -> real, ran: seq<string>, node: string, queue: seq<string>)
    requires Loop(graph, score, ran, [node] + queue) && node in ran
    ensures Loop(graph, score, ran, queue)
  {
    hide Reached, Gated, Queued;
    forall q | q in queue ensures Queued(graph, score, ran, q) {
      assert q in [node] + queue;
    }
    forall n, child | n in ran && Opens(graph, score, n, child) ensures child in ran || child in queue {
      assert child in ran || child in [node] + queue;
    }
    assert ROOT in ran || ROOT in [node] + queue;
  }

  /** A test is run; if it scores, its children that have not been run join the queue. */
  lemma Ran(graph: Graph, score: string -> real, ran: seq<string>, node: string, queue: seq<string>)
    requires Closed(graph) && Loop(graph, score, ran, [node] + queue) && node !in ran
    ensures node in graph
    ensures score(node) == 0.0 ==> Loop(graph, score, ran + [node], queue)
    ensures score(node) != 0.0 ==> Loop(graph, score, ran + [node], queue + Missing(graph[node], ran + [node]))
  {
    var next := ran + [node];
    assert node in [node] + queue;
    assert Queued(graph, score, ran, node);
    GatedAppend(graph, score, ran, node);
    forall q | q in queue ensures Queued(graph, score, next, q) {
      assert q in [node] + queue;
      QueuedLater(graph, score, ran, node, queue);
    }
    forall child | Opens(graph, score, node, child) ensures Queued(graph, score, next, child) {
      ChildQueued(graph, score, ran, node, child);
    }
    FrontierMoves(graph, score, ran, node, queue);
  }

  lemma FrontierMoves(graph: Graph, score: string -> real, ran: seq<string>, node: string, queue: seq<string>)
    requires Frontier(graph, score, ran, [node] + queue) && node in graph
    ensures score(node) == 0.0 ==> Frontier(graph, score, ran + [node], queue)
    ensures score(node) != 0.0 ==> Frontier(graph, score, ran + [node], queue + Missing(graph[node], ran + [node]))
  {
    var next := ran + [node];
    var more := queue + if score(node) == 0.0 then [] else Missing(graph[node], next);
    assert ROOT in ran || ROOT in [node] + queue;
    forall n, child | n in next && Opens(graph, score, n, child) ensures child in next || child in more {
      if n in ran {
        assert child in ran || child in [node] + queue;
      }
    }
    assert queue + [] == queue;
  }

  lemma ChildQueued(graph: Graph, score: string -> real, ran: seq<string>, node: string, child: string)
    requires Closed(graph) && Reached(graph, score, node) && Opens(graph, score, node, child)
    ensures Queued(graph, score, ran + [node], child)
  {
    ChildReached(graph, score, node, child);
    assert Opens(graph, score, (ran + [node])[|ran|], child);
  }

  /** With an empty queue every reached test has been run. */
  lemma Finished(graph: Graph, score: string -> real, ran: seq<string>)
    requires Loop(graph, score, ran, [])
    ensures Gated(graph, score, ran) && forall node :: node in ran <==> Reached(graph, score, node)
  {
    hide Gated;
    forall node | Reached(graph, score, node) ensures node in ran {
      var path :| Path(graph, score, path) && path[|path| - 1] == node;
      ReachedWithin(graph, score, path, set n | n in ran);
    }
  }
}
