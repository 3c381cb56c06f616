/** Exactly which logs of SETs guarantee that the replicas agree in the end. */
module ChainExact {
  import opened ClientLog
  import opened ChainReplication
  import opened ChainTheorems

  // ------------------------------------------------------------ driving the chain

  lemma ReachableNext(a: Chain, step: Step, b: Chain)
    requires Reachable(a) && Next(a, step, b)
    ensures Reachable(b)
  {
    hide Next, Init;
    var states, steps :| Run(states, steps) && Init(states[0]) && states[|steps|] == a;
    var states', steps' := states + [b], steps + [step];
    forall i | 0 <= i < |steps'| ensures Next(states'[i], steps'[i], states'[i + 1]) {
      if i < |steps| {
        assert Next(states[i], steps[i], states[i + 1]);
      }
    }
    assert Run(states', steps');
  }

  function EmptyChain(n: nat): Chain {
    Chain(seq(n, i => map[]), map[], [], [], seq(n, i => []))
  }

  lemma EmptyReachable(n: nat)
    requires n >= 1
    ensures Reachable(EmptyChain(n))
  {
    var c := EmptyChain(n);
    assert Init(c);
    assert Run([c], []);
  }

  /** Servers from `p` on store `val` under `key`, the others are as before. */
  ghost predicate Stored(servers: seq<KV>, servers': seq<KV>, p: nat, key: string, val: string) {
    && |servers'| == |servers|
    && forall i :: 0 <= i < |servers| ==> servers'[i] == if i >= p then servers[i][key := val] else servers[i]
  }

  lemma WriteOnce(c: Chain, w: nat) returns (c': Chain)
    requires Reachable(c) && w in c.requests && c.requests[w].SetAt?
    ensures c.requests[w].server < |c.servers| == |c.writes|
    ensures Reachable(c') && c' == WroteLocal(c, w)
  {
    ReachableInv(c);
    assert c.requests[w].server < |c.servers| == |c.writes|;
    hide Reachable, Inv;
    c' := WroteLocal(c, w);
    assert WriteLocalStep(c, w, c');
    ReachableNext(c, WriteLocal(w), c');
  }

  /** One thread runs all its remaining local writes, undisturbed. */
  lemma {:induction false} WriteDown(c: Chain, w: nat) returns (c': Chain)
    requires Reachable(c) && w in c.requests && c.requests[w].SetAt?
    ensures Reachable(c') && c'.log == c.log
    ensures var r := c.requests[w];
            && |c.servers| >= 1
            && c'.requests == c.requests[w := SetAcked(r.id, r.key, r.val, |c.servers| - 1)]
            && Stored(c.servers, c'.servers, r.server, r.key, r.val)
    decreases |c.servers| - c.requests[w].server
  {
    var r := c.requests[w];
    var b := WriteOnce(c, w);
    hide Reachable;
    if r.server == |c.servers| - 1 {
      c' := b;
    } else {
      c' := WriteDown(b, w);
      assert c'.requests == c.requests[w := SetAcked(r.id, r.key, r.val, |c.servers| - 1)];
    }
  }

  function WroteLocal(a: Chain, w: nat): Chain
    requires w in a.requests && a.requests[w].SetAt? && a.requests[w].server < |a.servers| == |a.writes|
  {
    var r := a.requests[w];
    a.(
      servers := a.servers[r.server := a.servers[r.server][r.key := r.val]],
      writes := a.writes[r.server := a.writes[r.server] + [SetOp(r)]],
      accesses := if r.server == Tail(a) then a.accesses + [SetOp(r)] else a.accesses,
      requests := a.requests[w :=
        if r.server == Tail(a) then SetAcked(r.id, r.key, r.val, r.server)
        else SetAt(r.id, r.key, r.val, r.server + 1)])
  }

  /** An acknowledged request returns to its client. */
  lemma {:induction false} Finish(c: Chain, w: nat) returns (c': Chain)
    requires Reachable(c) && w in c.requests && c.requests[w].SetAcked?
    ensures Reachable(c') && c'.servers == c.servers && c'.requests == c.requests - {w}
    ensures c'.log == c.log + [Set(w, c.requests[w].key, c.requests[w].val)]
    decreases c.requests[w].server
  {
    var r := c.requests[w];
    if r.server == 0 {
      c' := c.(requests := c.requests - {w}, log := c.log + [Set(w, r.key, r.val)]);
      assert ReturnSetStep(c, w, c');
      ReachableNext(c, ReturnSet(w), c');
    } else {
      var b := c.(requests := c.requests[w := SetAcked(r.id, r.key, r.val, r.server - 1)]);
      assert ReplyUpStep(c, w, b);
      ReachableNext(c, ReplyUp(w), b);
      c' := Finish(b, w);
      assert c'.requests == c.requests - {w};
    }
  }

  lemma Begin(c: Chain, w: nat, key: string, val: string) returns (c': Chain)
    requires Reachable(c) && w !in c.requests
    ensures Reachable(c') && c'.servers == c.servers && c'.log == c.log + [Setting(w, key, val)]
    ensures c'.requests == c.requests[w := SetAt(NextId(c), key, val, 0)]
  {
    c' := c.(requests := c.requests[w := SetAt(NextId(c), key, val, 0)], log := c.log + [Setting(w, key, val)]);
    assert InvokeSetStep(c, w, key, val, c');
    ReachableNext(c, InvokeSet(w, key, val), c');
  }

  /** A SET that no other thread disturbs does to every server what `CRServer.ProcessReq` does. */
  lemma UndisturbedSet(c: Chain, w: nat, key: string, val: string) returns (c': Chain)
    requires Reachable(c) && w !in c.requests
    ensures Reachable(c') && c'.requests == c.requests
    ensures c'.log == c.log + [Setting(w, key, val), Set(w, key, val)]
    ensures Stored(c.servers, c'.servers, 0, key, val)
  {
    hide Reachable;
    var c1 := Begin(c, w, key, val);
    var c2 := WriteDown(c1, w);
    c' := Finish(c2, w);
    assert c'.requests == c.requests;
  }

  /**
   * A GET that no other thread disturbs: the tail answers with its value, and for a key that it lacks the client waits
   * for ever. No server changes.
   */
  lemma UndisturbedGet(c: Chain, w: nat, key: string) returns (c': Chain)
    requires Reachable(c) && w !in c.requests
    ensures Reachable(c') && |c.servers| >= 1 && c'.servers == c.servers
    ensures var d := c.servers[|c.servers| - 1];
      if key in d then c'.requests == c.requests && c'.log == c.log + [Getting(w, key), Get(w, key, d[key])]
      else
        && c'.requests.Keys == c.requests.Keys + {w} && c'.requests[w].GetFailed? && c'.requests - {w} == c.requests
        && c'.log == c.log + [Getting(w, key)]
  {
    var c1 := BeginGet(c, w, key);
    hide Reachable;
    if key in c.servers[|c.servers| - 1] {
      c' := AnswerGet(c1, w);
      assert c'.requests == c.requests;
    } else {
      var r := c1.requests[w];
      c' := c1.(requests := c1.requests[w := GetFailed(r.id, r.key)]);
      assert ReadTailStep(c1, w, c');
      ReachableNext(c1, ReadTail(w), c');
    }
  }

  lemma BeginGet(c: Chain, w: nat, key: string) returns (c': Chain)
    requires Reachable(c) && w !in c.requests
    ensures Reachable(c') && |c.servers| >= 1 && c'.servers == c.servers && c'.log == c.log + [Getting(w, key)]
    ensures c'.requests == c.requests[w := GetSent(NextId(c), key)]
  {
    ReachableInv(c);
    ServersExist(c);
    hide Reachable, Inv;
    c' := c.(requests := c.requests[w := GetSent(NextId(c), key)], log := c.log + [Getting(w, key)]);
    assert InvokeGetStep(c, w, key, c');
    ReachableNext(c, InvokeGet(w, key), c');
  }

  lemma AnswerGet(c: Chain, w: nat) returns (c': Chain)
    requires Reachable(c) && w in c.requests && c.requests[w].GetSent? && |c.servers| >= 1
    requires c.requests[w].key in c.servers[|c.servers| - 1]
    ensures Reachable(c') && c'.servers == c.servers && c'.requests == c.requests - {w}
    ensures var key := c.requests[w].key;
      c'.log == c.log + [Get(w, key, c.servers[|c.servers| - 1][key])]
  {
    hide Reachable;
    var key, d := c.requests[w].key, c.servers[|c.servers| - 1];
    var r := GetFound(c.requests[w].id, key, d[key]);
    var b := c.(requests := c.requests[w := r], accesses := c.accesses + [GetOp(r)]);
    assert ReadTailStep(c, w, b);
    ReachableNext(c, ReadTail(w), b);
    c' := b.(requests := b.requests - {w}, log := b.log + [Get(w, key, d[key])]);
    assert ReturnGetStep(b, w, c');
    ReachableNext(b, ReturnGet(w), c');
  }

  lemma ServersExist(c: Chain)
    requires Inv(c)
    ensures |c.servers| >= 1
  {
  }

  // ------------------------------------------------------------ facts about a log

  ghost predicate SetsOnly(h: seq<Line>) {
    forall line <- h :: line.Setting? || line.Set?
  }

  /** SETs only, and every call has returned. */
  ghost predicate Complete(h: seq<Line>) {
    Alternates(h) && SetsOnly(h) && forall w: nat :: OpenCall(h, w) == Other
  }

  /** The same in the parser's terms. */
  ghost predicate Concluded(h: seq<Line>) {
    Fitting(h) && SetsOnly(h) && Parsed(h).open == map[]
  }

  lemma CompleteIsConcluded(h: seq<Line>)
    requires Complete(h)
    ensures Concluded(h)
  {
    hide Alternates, Fitting, Parsed;
    AlternatesIsFitting(h);
    ParserTracks(h);
  }

  lemma {:induction false} EventsGrow(h: seq<Line>, m: nat)
    requires m <= |h|
    ensures Parsed(h[..m]).events <= Parsed(h).events
    decreases |h|
  {
    if m < |h| {
      var init := h[..|h| - 1];
      EventsGrow(init, m);
      assert init[..m] == h[..m];
    } else {
      assert h[..m] == h;
    }
  }

  lemma ParsedNext(h: seq<Line>, m: nat)
    requires m < |h|
    ensures Parsed(h[..m + 1]) == ParseLine(Parsed(h[..m]), h[m])
  {
    assert h[..m + 1][..m] == h[..m];
  }

  /** No SET of `key` is called after operation `id` has returned. */
  ghost predicate NoneAfter(h: seq<Line>, key: string, id: nat) {
    forall m: nat :: m < |h| && h[m].Setting? && h[m].key == key ==> !HasReturn(Parsed(h[..m]).events, id)
  }

  /** When operation `a` returns, operation `b` has not. */
  ghost predicate ReturnsFirst(h: seq<Line>, a: nat, b: nat) {
    forall m: nat :: m < |h| && h[m].Set? && OpenId(Parsed(h[..m]).open, h[m].worker) == a
      ==> !HasReturn(Parsed(h[..m]).events, b)
  }

  lemma UnfollowedNoneAfter(h: seq<Line>, key: string, x: nat)
    requires Unfollowed(Parsed(h).events, x, key)
    ensures NoneAfter(h, key, Parsed(h).events[x].id)
  {
    var events := Parsed(h).events;
    forall m: nat | m < |h| && h[m].Setting? && h[m].key == key
      ensures !HasReturn(Parsed(h[..m]).events, events[x].id)
    {
      var before := Parsed(h[..m]).events;
      ParsedNext(h, m);
      EventsGrow(h, m + 1);
      assert SetCall(events[|before|], key);
      forall r | 0 <= r < |before| ensures !(before[r].kind.ReturnEvent? && before[r].id == events[x].id) {
        assert events[r] == before[r];
      }
    }
  }

  lemma EarlierReturnsFirst(h: seq<Line>, ra: nat, rb: nat)
    requires WellFormed(Parsed(h).events) && ra < rb < |Parsed(h).events|
    requires Parsed(h).events[ra].kind.ReturnEvent? && Parsed(h).events[rb].kind.ReturnEvent?
    ensures ReturnsFirst(h, Parsed(h).events[ra].id, Parsed(h).events[rb].id)
  {
    var events := Parsed(h).events;
    var a, b := events[ra].id, events[rb].id;
    hide Answered;
    forall m: nat | m < |h| && h[m].Set? && OpenId(Parsed(h[..m]).open, h[m].worker) == a
      ensures !HasReturn(Parsed(h[..m]).events, b)
    {
      var before := Parsed(h[..m]).events;
      ParsedNext(h, m);
      EventsGrow(h, m + 1);
      assert events[|before|].kind.ReturnEvent? && events[|before|].id == a;
      assert |before| == ra;
      forall r | 0 <= r < |before| ensures !(before[r].kind.ReturnEvent? && before[r].id == b) {
        assert events[r] == before[r];
      }
    }
  }

  // ------------------------------------------------------------ a run that ends in disagreement

  /** `a` writes nowhere before it returns, `b` only at the head, everything else everywhere. */
  ghost predicate Staged(r: Request, a: nat, b: nat) {
    (r.SetAt? || r.SetAcked?) &&
    if r.id == a then r.SetAt? && r.server == 0
    else if r.id == b then r.SetAt? && r.server == 1
    else r.SetAcked?
  }

  /** The two SETs of `key` that are to come last: `a` at the head, `b` at the tail. */
  datatype Rivals = Rivals(key: string, a: Event, b: Event)

  ghost predicate Rivalry(h: seq<Line>, x: Rivals) {
    && x.a in Parsed(h).events && SetCall(x.a, x.key) && NoneAfter(h, x.key, x.a.id)
    && x.b in Parsed(h).events && SetCall(x.b, x.key) && NoneAfter(h, x.key, x.b.id)
    && x.a.id != x.b.id && ReturnsFirst(h, x.a.id, x.b.id)
  }

  ghost predicate Holding(d: KV, key: string, val: string) {
    key in d && d[key] == val
  }

  /** A chain whose log is the given prefix, run so that `a` is last at the head and `b` at the tail. */
  ghost predicate Driven(c: Chain, n: nat, log: seq<Line>, x: Rivals) {
    && Reachable(c) && |c.servers| == n >= 2 && c.log == log
    && (forall w <- c.requests :: Staged(c.requests[w], x.a.id, x.b.id))
    && (HasReturn(Parsed(log).events, x.a.id) ==> Holding(c.servers[0], x.key, x.a.value.value))
    && (HasReturn(Parsed(log).events, x.b.id) ==> Holding(c.servers[n - 1], x.key, x.b.value.value))
  }

  lemma DriveCall(c: Chain, n: nat, h: seq<Line>, m: nat, x: Rivals) returns (c': Chain)
    requires Fitting(h) && Rivalry(h, x) && m < |h| && h[m].Setting? && Driven(c, n, h[..m], x)
    ensures Driven(c', n, h[..m + 1], x)
  {
    hide Reachable, Rivalry, NoneAfter, ReturnsFirst, HasReturn, SetCall;
    var Setting(w, key, val) := h[m];
    var p := Parsed(h[..m]);
    CallContext(c, h, m, x);
    var c1 := Begin(c, w, key, val);
    var r := c1.requests[w];
    if r.id == x.a.id {
      c' := c1;
    } else if r.id == x.b.id {
      c' := WriteOnce(c1, w);
    } else {
      c' := WriteDown(c1, w);
    }
    assert h[..m + 1] == h[..m] + [h[m]];
  }

  /** What a call line finds: its worker is idle, and it changes no return. */
  lemma CallContext(c: Chain, h: seq<Line>, m: nat, x: Rivals)
    requires Fitting(h) && Rivalry(h, x) && m < |h| && h[m].Setting?
    requires Reachable(c) && c.log == h[..m]
    ensures h[m].worker !in c.requests
    ensures forall id: nat :: HasReturn(Parsed(h[..m + 1]).events, id) <==> HasReturn(Parsed(h[..m]).events, id)
    ensures h[m].key == x.key ==> !HasReturn(Parsed(h[..m]).events, x.a.id) && !HasReturn(Parsed(h[..m]).events, x.b.id)
  {
    hide HasReturn, ParseInv, Parsed, TailInv, ServersInv, Reachable;
    ReachableInv(c);
    ParsedNext(h, m);
    assert Fits(Parsed(h[..m]), h[m]);
    var e := Event(h[m].worker, CallEvent, InputOutput(true, h[m].key, h[m].val), Parsed(h[..m]).next);
    forall id: nat ensures HasReturn(Parsed(h[..m + 1]).events, id) <==> HasReturn(Parsed(h[..m]).events, id) {
      HasAppend(Parsed(h[..m]).events, e, 0, id);
    }
  }

  /** What a return line finds: a request of its worker with the same key and value. */
  lemma ReturnContext(c: Chain, h: seq<Line>, m: nat, x: Rivals)
    requires Fitting(h) && Rivalry(h, x) && m < |h| && h[m].Set?
    requires Reachable(c) && c.log == h[..m] && forall w <- c.requests :: Staged(c.requests[w], x.a.id, x.b.id)
    ensures var w := h[m].worker;
            && w in c.requests
            && var r := c.requests[w];
               && InputOf(r) == InputOutput(true, h[m].key, h[m].val)
               && (r.id == x.a.id ==> InputOf(r) == x.a.value && !HasReturn(Parsed(h[..m]).events, x.b.id))
               && (r.id == x.b.id ==> InputOf(r) == x.b.value)
               && forall id: nat ::
                    HasReturn(Parsed(h[..m + 1]).events, id) <==> HasReturn(Parsed(h[..m]).events, id) || id == r.id
  {
    hide HasReturn, Parsed, Reachable, Fitting, NoneAfter, Staged, InputOf;
    ReturnRequest(c, h, m);
    var w := h[m].worker;
    var r := c.requests[w];
    var p := Parsed(h[..m]);
    var call := Event(w, CallEvent, InputOf(r), r.id);
    assert call in Parsed(h).events by {
      EventsGrow(h, m);
    }
    RivalReturns(h, m, x, r.id);
    SameCall(h, call, x.a);
    SameCall(h, call, x.b);
    var e := Event(w, ReturnEvent, InputOutput(true, h[m].key, h[m].val), r.id);
    forall id: nat ensures HasReturn(Parsed(h[..m + 1]).events, id) <==> HasReturn(p.events, id) || id == r.id {
      HasAppend(p.events, e, 0, id);
    }
  }

  lemma SameCall(h: seq<Line>, a: Event, b: Event)
    requires Fitting(h) && a in Parsed(h).events && b in Parsed(h).events
    requires a.kind.CallEvent? && b.kind.CallEvent?
    ensures a.id == b.id ==> a.value == b.value
  {
    hide Parsed, Fitting, OpenInv, CallInv;
    FittingParses(h);
    hide WellFormed;
    if a.id == b.id {
      UniqueCall(Parsed(h).events, a, b);
    }
  }

  lemma RivalReturns(h: seq<Line>, m: nat, x: Rivals, id: nat)
    requires Rivalry(h, x) && m < |h| && h[m].Set? && OpenId(Parsed(h[..m]).open, h[m].worker) == id
    ensures SetCall(x.a, x.key) && SetCall(x.b, x.key) && x.a in Parsed(h).events && x.b in Parsed(h).events
    ensures id == x.a.id ==> !HasReturn(Parsed(h[..m]).events, x.b.id)
  {
    hide Parsed, HasReturn, NoneAfter;
  }

  /** The request a return line answers. */
  lemma ReturnRequest(c: Chain, h: seq<Line>, m: nat)
    requires Fitting(h) && m < |h| && h[m].Set? && Reachable(c) && c.log == h[..m]
    ensures var w := h[m].worker;
            && w in c.requests && w in Parsed(h[..m]).open && Parsed(h[..m]).open[w] == c.requests[w].id
            && InputOf(c.requests[w]) == InputOutput(true, h[m].key, h[m].val)
            && Event(w, CallEvent, InputOf(c.requests[w]), c.requests[w].id) in Parsed(h[..m]).events
            && Parsed(h[..m + 1]) == Returned(Parsed(h[..m]), w, InputOutput(true, h[m].key, h[m].val))
  {
    hide Parsed, Reachable, Fitting, TailInv, ServersInv, OpenInv, CallInv, WellFormed, InputOf;
    ReachableInv(c);
    ParsedNext(h, m);
    FitsAt(h, m);
    var w := h[m].worker;
    var r := c.requests[w];
    UniqueCall(Parsed(h[..m]).events, Event(w, CallEvent, InputOf(r), r.id),
               Event(w, CallEvent, InputOutput(true, h[m].key, h[m].val), r.id));
  }

  lemma FitsAt(h: seq<Line>, m: nat)
    requires Fitting(h) && m < |h|
    ensures Fits(Parsed(h[..m]), h[m])
  {
  }

  lemma DriveReturn(c: Chain, n: nat, h: seq<Line>, m: nat, x: Rivals) returns (c': Chain)
    requires Fitting(h) && Rivalry(h, x) && m < |h| && h[m].Set? && Driven(c, n, h[..m], x)
    ensures Driven(c', n, h[..m + 1], x)
  {
    hide Reachable, NoneAfter, ReturnsFirst, HasReturn, Fitting, Parsed;
    var w := h[m].worker;
    ReturnContext(c, h, m, x);
    var r := c.requests[w];
    var c1 := c;
    if r.SetAt? {
      c1 := WriteDown(c, w);
    }
    c' := Finish(c1, w);
    assert h[..m + 1] == h[..m] + [h[m]];
    DrivenRequests(c, c', w, x);
  }

  lemma DrivenRequests(c: Chain, c': Chain, w: nat, x: Rivals)
    requires forall v <- c.requests :: Staged(c.requests[v], x.a.id, x.b.id)
    requires forall v <- c'.requests :: v in c.requests && v != w && c'.requests[v] == c.requests[v]
    ensures forall v <- c'.requests :: Staged(c'.requests[v], x.a.id, x.b.id)
  {
  }

  lemma {:induction false} Drive(n: nat, h: seq<Line>, m: nat, x: Rivals) returns (c: Chain)
    requires n >= 2 && Fitting(h) && SetsOnly(h) && Rivalry(h, x) && m <= |h|
    ensures Driven(c, n, h[..m], x)
  {
    hide Fitting, Rivalry, Reachable;
    if m == 0 {
      c := EmptyChain(n);
      EmptyReachable(n);
    } else {
      var before := Drive(n, h, m - 1, x);
      hide Driven;
      assert h[m - 1] in h;
      if h[m - 1].Setting? {
        c := DriveCall(before, n, h, m - 1, x);
      } else {
        c := DriveReturn(before, n, h, m - 1, x);
      }
    }
  }

  // ------------------------------------------------------------ the exact condition

  /** Every complete run that leaves this log ends with all replicas agreeing on `key`. */
  ghost predicate AlwaysAgree(h: seq<Line>, n: nat, key: string) {
    forall c: Chain :: Reachable(c) && |c.servers| == n && c.log == h ==> AgreeOn(c, key)
  }

  /** A complete log of SETs guarantees agreement on a key exactly when the SETs of the key that no
      later SET follows all store the same value. */
  lemma AgreementExact(h: seq<Line>, n: nat, key: string)
    requires n >= 2 && Complete(h)
    ensures AlwaysAgree(h, n, key) <==> LastSetsAgree(Parsed(h).events, key)
  {
    CompleteIsConcluded(h);
    hide Reachable, AgreeOn, Fitting, SetsOnly, Complete;
    if LastSetsAgree(Parsed(h).events, key) {
      hide LastSetsAgree;
      forall c: Chain | Reachable(c) && |c.servers| == n && c.log == h ensures AgreeOn(c, key) {
        ConcludedIsQuiescent(c, h);
        AgreementAtQuiescence(c, key);
      }
    } else {
      hide Unfollowed;
      var events := Parsed(h).events;
      var i: nat, j: nat :| Unfollowed(events, i, key) && Unfollowed(events, j, key)
        && events[i].value.value != events[j].value.value;
      var c := Disagree(h, n, key, i, j);
    }
  }

  lemma ConcludedIsQuiescent(c: Chain, h: seq<Line>)
    requires Concluded(h) && Reachable(c) && c.log == h
    ensures Quiescent(c)
  {
    hide Reachable, Fitting, Parsed;
    ReachableInv(c);
  }

  lemma Disagree(h: seq<Line>, n: nat, key: string, i: nat, j: nat) returns (c: Chain)
    requires n >= 2 && Concluded(h)
    requires Unfollowed(Parsed(h).events, i, key) && Unfollowed(Parsed(h).events, j, key)
    requires Parsed(h).events[i].value.value != Parsed(h).events[j].value.value
    ensures Reachable(c) && |c.servers| == n && c.log == h && !AgreeOn(c, key)
  {
    hide Reachable, Parsed, Fitting, Followed, NoneAfter, ReturnsFirst, WellFormed, OpenInv;
    var events := Parsed(h).events;
    FittingParses(h);
    var ra := ReturnOf(h, i);
    var rb := ReturnOf(h, j);
    assert ra != rb by {
      UniqueIds(events, i, j);
    }
    UnfollowedNoneAfter(h, key, i);
    UnfollowedNoneAfter(h, key, j);
    var x := if ra < rb then Rivals(key, events[i], events[j]) else Rivals(key, events[j], events[i]);
    if ra < rb {
      EarlierReturnsFirst(h, ra, rb);
    } else {
      EarlierReturnsFirst(h, rb, ra);
    }
    UniqueIds(events, i, j);
    assert h[..|h|] == h;
    c := Drive(n, h, |h|, x);
    assert Holding(c.servers[0], key, x.a.value.value) && Holding(c.servers[n - 1], key, x.b.value.value);
  }

  lemma UniqueIds(events: seq<Event>, i: nat, j: nat)
    requires WellFormed(events) && i < |events| && j < |events| && events[i] != events[j]
    requires events[i].kind.CallEvent? && events[j].kind.CallEvent?
    ensures events[i].id != events[j].id
  {
    if events[i].id == events[j].id {
      UniqueCall(events, events[i], events[j]);
    }
  }

  /** In a complete log every call has returned. */
  lemma ReturnOf(h: seq<Line>, i: nat) returns (r: nat)
    requires Concluded(h) && ParseInv(Parsed(h)) && i < |Parsed(h).events| && Parsed(h).events[i].kind.CallEvent?
    ensures r < |Parsed(h).events| && Parsed(h).events[r].kind.ReturnEvent?
    ensures Parsed(h).events[r].id == Parsed(h).events[i].id
    ensures HasReturn(Parsed(h).events, Parsed(h).events[i].id)
  {
    hide WellFormed, OpenInv, Fitting, Parsed;
    var events := Parsed(h).events;
    assert events[i] in events;
    assert HasReturn(events, events[i].id);
    var e :| e in events && e.kind.ReturnEvent? && e.id == events[i].id;
    r :| 0 <= r < |events| && events[r] == e;
  }
}
