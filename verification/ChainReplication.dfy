/** Chain replication as a transition system: a chain of servers, each request served by its own
    thread, no lock held between a server's local write and the forward to the next server. */
module ChainReplication {
  import opened ClientLog

  /** A worker's request in progress. `id` is the number the log parser gives the call. */
  datatype Request =
    | SetAt(id: nat, key: string, val: string, server: nat)      // on its way to `server`
    | SetAcked(id: nat, key: string, val: string, server: nat)   // `server` has the answer OK
    | GetSent(id: nat, key: string)
    | GetFound(id: nat, key: string, val: string)
    | GetFailed(id: nat, key: string)                            // the tail raised KeyError

  /** `accesses` lists the tail's dictionary accesses, `writes[i]` the writes of server `i`,
      in the order they happened; no step reads them. */
  datatype Chain = Chain(
    servers: seq<KV>, requests: map<nat, Request>, log: seq<Line>,
    accesses: seq<Operation>, writes: seq<seq<Operation>>)

  datatype Step =
    | InvokeSet(w: nat, key: string, val: string)
    | InvokeGet(w: nat, key: string)
    | WriteLocal(w: nat)
    | ReplyUp(w: nat)
    | ReturnSet(w: nat)
    | ReadTail(w: nat)
    | ReturnGet(w: nat)

  function Tail(c: Chain): int {
    |c.servers| - 1
  }

  function NextId(c: Chain): nat {
    Parsed(c.log).next
  }

  function InputOf(r: Request): InputOutput {
    if r.SetAt? || r.SetAcked? then InputOutput(true, r.key, r.val) else InputOutput(false, r.key, "")
  }

  function SetOp(r: Request): Operation
    requires r.SetAt? || r.SetAcked?
  {
    Operation(r.id, InputOf(r), InputOf(r))
  }

  function GetOp(r: Request): Operation
    requires r.GetFound?
  {
    Operation(r.id, InputOf(r), InputOutput(false, r.key, r.val))
  }

  ghost predicate Init(c: Chain) {
    && |c.servers| >= 1
    && (forall i :: 0 <= i < |c.servers| ==> c.servers[i] == map[])
    && c.requests == map[] && c.log == [] && c.accesses == []
    && |c.writes| == |c.servers| && (forall i :: 0 <= i < |c.writes| ==> c.writes[i] == [])
  }

  /** The client sends a SET to the head. */
  ghost predicate InvokeSetStep(a: Chain, w: nat, key: string, val: string, b: Chain) {
    && w !in a.requests
    && b == a.(requests := a.requests[w := SetAt(NextId(a), key, val, 0)], log := a.log + [Setting(w, key, val)])
  }

  ghost predicate InvokeGetStep(a: Chain, w: nat, key: string, b: Chain) {
    && w !in a.requests
    && b == a.(requests := a.requests[w := GetSent(NextId(a), key)], log := a.log + [Getting(w, key)])
  }

  /** The request's thread at one server writes the local dictionary; then the request travels
      to the next server, or the tail answers OK. */
  ghost predicate WriteLocalStep(a: Chain, w: nat, b: Chain) {
    && w in a.requests && a.requests[w].SetAt?
    && var r := a.requests[w];
       && r.server < |a.servers| == |a.writes|
       && b == a.(
            servers := a.servers[r.server := a.servers[r.server][r.key := r.val]],
            writes := a.writes[r.server := a.writes[r.server] + [SetOp(r)]],
            accesses := if r.server == Tail(a) then a.accesses + [SetOp(r)] else a.accesses,
            requests := a.requests[w :=
              if r.server == Tail(a) then SetAcked(r.id, r.key, r.val, r.server)
              else SetAt(r.id, r.key, r.val, r.server + 1)])
  }

  /** A server passes the answer to its predecessor. */
  ghost predicate ReplyUpStep(a: Chain, w: nat, b: Chain) {
    && w in a.requests && a.requests[w].SetAcked? && a.requests[w].server > 0
    && var r := a.requests[w];
       b == a.(requests := a.requests[w := SetAcked(r.id, r.key, r.val, r.server - 1)])
  }

  /** The head answers the client. */
  ghost predicate ReturnSetStep(a: Chain, w: nat, b: Chain) {
    && w in a.requests && a.requests[w].SetAcked? && a.requests[w].server == 0
    && var r := a.requests[w];
       b == a.(requests := a.requests - {w}, log := a.log + [Set(w, r.key, r.val)])
  }

  /** Only the tail serves a GET; an absent key raises an error and is never answered. */
  ghost predicate ReadTailStep(a: Chain, w: nat, b: Chain) {
    && w in a.requests && a.requests[w].GetSent? && |a.servers| >= 1
    && var r := a.requests[w];
       var d := a.servers[Tail(a)];
       if r.key in d then
         var r' := GetFound(r.id, r.key, d[r.key]);
         b == a.(requests := a.requests[w := r'], accesses := a.accesses + [GetOp(r')])
       else
         b == a.(requests := a.requests[w := GetFailed(r.id, r.key)])
  }

  ghost predicate ReturnGetStep(a: Chain, w: nat, b: Chain) {
    && w in a.requests && a.requests[w].GetFound?
    && var r := a.requests[w];
       b == a.(requests := a.requests - {w}, log := a.log + [Get(w, r.key, r.val)])
  }

  ghost predicate Next(a: Chain, step: Step, b: Chain) {
    match step
    case InvokeSet(w, key, val) => InvokeSetStep(a, w, key, val, b)
    case InvokeGet(w, key) => InvokeGetStep(a, w, key, b)
    case WriteLocal(w) => WriteLocalStep(a, w, b)
    case ReplyUp(w) => ReplyUpStep(a, w, b)
    case ReturnSet(w) => ReturnSetStep(a, w, b)
    case ReadTail(w) => ReadTailStep(a, w, b)
    case ReturnGet(w) => ReturnGetStep(a, w, b)
  }

  /** `states[i]` becomes `states[i + 1]` by `steps[i]`. */
  ghost predicate Run(states: seq<Chain>, steps: seq<Step>) {
    && |states| == |steps| + 1
    && forall i :: 0 <= i < |steps| ==> Next(states[i], steps[i], states[i + 1])
  }

  ghost predicate Reachable(c: Chain) {
    exists states: seq<Chain>, steps: seq<Step> ::
      Run(states, steps) && Init(states[0]) && states[|steps|] == c
  }

  // ------------------------------------------------------------ lists that follow the history

  ghost predicate HasId(ops: seq<Operation>, id: nat) {
    exists o <- ops :: o.id == id
  }

  /** Operations with distinct ids, all called, in an order that respects real time. */
  ghost predicate Tracked(events: seq<Event>, ops: seq<Operation>) {
    DistinctIds(ops) && AllCalled(events, ops) && RealTime(events, ops)
  }

  lemma TrackedGrow(p: Parse, e: Event, ops: seq<Operation>)
    requires ParseInv(p) && Tracked(p.events, ops)
    requires e.kind.CallEvent? ==> e.id == p.next
    ensures Tracked(p.events + [e], ops)
  {
    hide WellFormed, CallInv;
    var events' := p.events + [e];
    forall o <- ops ensures exists w :: Event(w, CallEvent, o.input, o.id) in events' {
      var w :| Event(w, CallEvent, o.input, o.id) in p.events;
      assert Event(w, CallEvent, o.input, o.id) in events';
    }
    forall q | 0 <= q < |ops| ensures ops[q].id < p.next {
      assert ops[q] in ops;
      var w :| Event(w, CallEvent, ops[q].input, ops[q].id) in p.events;
    }
  }

  /** The operation of an open call may take effect now. */
  lemma TrackedAppend(p: Parse, ops: seq<Operation>, o: Operation, w: nat)
    requires ParseInv(p) && Tracked(p.events, ops)
    requires w in p.open && p.open[w] == o.id && !HasId(ops, o.id)
    requires Event(w, CallEvent, o.input, o.id) in p.events
    ensures Tracked(p.events, ops + [o])
  {
    hide WellFormed, CallInv;
    var ops' := ops + [o];
    forall q | 0 <= q < |ops| ensures ops[q].id != o.id {
      assert ops[q] in ops;
    }
    forall i | 0 <= i < |p.events| && p.events[i].kind.ReturnEvent? ensures p.events[i].id != o.id {
      assert p.events[i] in p.events;
      assert !HasReturn(p.events, o.id);
    }
    assert DistinctIds(ops');
    assert AllCalled(p.events, ops');
    TrackedRealTime(p.events, ops, o);
  }

  lemma TrackedRealTime(events: seq<Event>, ops: seq<Operation>, o: Operation)
    requires RealTime(events, ops)
    requires forall q :: 0 <= q < |ops| ==> ops[q].id != o.id
    requires forall i :: 0 <= i < |events| && events[i].kind.ReturnEvent? ==> events[i].id != o.id
    ensures RealTime(events, ops + [o])
  {
    var ops' := ops + [o];
    forall i, j, p, q | 0 <= i < j < |events| && 0 <= p < |ops'| && 0 <= q < |ops'|
      && events[i].kind.ReturnEvent? && events[j].kind.CallEvent?
      && ops'[p].id == events[i].id && ops'[q].id == events[j].id
      ensures p < q
    {
      assert p < |ops|;
      if q < |ops| {
        assert ops[p].id == events[i].id && ops[q].id == events[j].id;
      }
    }
  }

  // ------------------------------------------------------------ the invariant

  datatype Expected = Absent | Present(op: Operation)

  /** What the tail's access list says about a request. */
  function AtTail(r: Request): Expected {
    match r
    case SetAcked(_, _, _, _) => Present(SetOp(r))
    case GetFound(_, _, _) => Present(GetOp(r))
    case _ => Absent
  }

  /** What the write list of server `i` says about a request. */
  function AtServer(i: nat, r: Request): Expected {
    match r
    case SetAt(_, _, _, server) => if i < server then Present(SetOp(r)) else Absent
    case SetAcked(_, _, _, _) => Present(SetOp(r))
    case _ => Absent
  }

  ghost predicate Holds(ops: seq<Operation>, id: nat, x: Expected) {
    match x
    case Absent => !HasId(ops, id)
    case Present(o) => o in ops
  }

  /** The log parses, and its open calls are the requests in progress. */
  ghost predicate LogInv(c: Chain) {
    var p := Parsed(c.log);
    && Fitting(c.log) && ParseInv(p)
    && p.open.Keys == c.requests.Keys
    && forall w <- c.requests ::
         p.open[w] == c.requests[w].id && Event(w, CallEvent, InputOf(c.requests[w]), c.requests[w].id) in p.events
  }

  /** No get relied on the default value of an absent key. */
  ghost predicate NoDefault(ops: seq<Operation>) {
    forall q :: 0 <= q < |ops| && !ops[q].input.op ==> ops[q].output.key in SpecRun(ops[..q]).1
  }

  /** The tail's dictionary is the specification run over the tail's accesses. */
  ghost predicate TailInv(c: Chain) {
    && |c.servers| >= 1
    && Tracked(Parsed(c.log).events, c.accesses)
    && Covers(Parsed(c.log).events, c.accesses)
    && SpecRun(c.accesses) == (true, c.servers[Tail(c)])
    && NoDefault(c.accesses)
    && forall w <- c.requests :: Holds(c.accesses, c.requests[w].id, AtTail(c.requests[w]))
  }

  ghost predicate PutsOnly(ops: seq<Operation>) {
    forall o <- ops :: o.input.op && o.output == o.input
  }

  /** Every acknowledged SET is among these writes. */
  ghost predicate CoversSets(events: seq<Event>, ops: seq<Operation>) {
    forall e <- events | e.kind.ReturnEvent? && e.value.op :: Operation(e.id, e.value, e.value) in ops
  }

  ghost predicate ServerInv(events: seq<Event>, requests: map<nat, Request>, i: nat, d: KV, ops: seq<Operation>) {
    && Tracked(events, ops) && PutsOnly(ops) && CoversSets(events, ops)
    && SpecRun(ops).1 == d
    && forall w <- requests :: Holds(ops, requests[w].id, AtServer(i, requests[w]))
  }

  /** Whatever a server has written, every server before it has written too. */
  ghost predicate Downstream(writes: seq<seq<Operation>>) {
    forall i, j, o | 0 <= i <= j < |writes| && o in writes[j] :: o in writes[i]
  }

  ghost predicate ServersInv(c: Chain) {
    && |c.writes| == |c.servers|
    && Downstream(c.writes)
    && (forall w <- c.requests | c.requests[w].SetAt? :: c.requests[w].server < |c.servers|)
    && forall i: nat :: i < |c.servers| ==>
         ServerInv(Parsed(c.log).events, c.requests, i, c.servers[i], c.writes[i])
  }

  ghost predicate Inv(c: Chain) {
    LogInv(c) && TailInv(c) && ServersInv(c)
  }

  lemma InitInv(c: Chain)
    requires Init(c)
    ensures Inv(c)
  {
    hide ParseInv;
    assert ParseInv(Parsed([])) by {
      FittingParses([]);
    }
    forall i: nat | i < |c.servers| ensures ServerInv([], c.requests, i, c.servers[i], c.writes[i]) {
      assert c.writes[i] == [];
    }
  }

  // ------------------------------------------------------------ the log grows by one line

  lemma AppendFitting(log: seq<Line>, line: Line)
    requires Fitting(log) && Fits(Parsed(log), line)
    ensures Fitting(log + [line]) && Parsed(log + [line]) == ParseLine(Parsed(log), line)
  {
    hide Fits;
    var log' := log + [line];
    assert log'[..|log|] == log;
    forall i | 0 <= i < |log'| ensures Fits(Parsed(log'[..i]), log'[i]) {
      if i < |log| {
        assert log'[..i] == log[..i];
      }
    }
  }

  /** Ids already in a list are older than the next call. */
  lemma NextIdAbsent(p: Parse, ops: seq<Operation>)
    requires ParseInv(p) && AllCalled(p.events, ops)
    ensures !HasId(ops, p.next)
  {
    hide WellFormed, CallInv;
    forall o <- ops ensures o.id < p.next {
      var w :| Event(w, CallEvent, o.input, o.id) in p.events;
    }
  }

  ghost predicate InvokeStep(a: Chain, w: nat, r: Request, line: Line, b: Chain) {
    && w !in a.requests && r.id == NextId(a) && r.SetAt? != r.GetSent? && (r.SetAt? ==> r.server == 0)
    && ParseLine(Parsed(a.log), line) == Called(Parsed(a.log), w, InputOf(r))
    && Fits(Parsed(a.log), line)
    && b == a.(requests := a.requests[w := r], log := a.log + [line])
  }

  lemma InvokeKeepsInv(a: Chain, w: nat, r: Request, line: Line, b: Chain)
    requires Inv(a) && InvokeStep(a, w, r, line, b)
    ensures Inv(b)
  {
    InvokeKeepsLog(a, w, r, line, b);
    InvokeKeepsTail(a, w, r, line, b);
    InvokeKeepsServers(a, w, r, line, b);
  }

  lemma InvokeKeepsLog(a: Chain, w: nat, r: Request, line: Line, b: Chain)
    requires LogInv(a) && InvokeStep(a, w, r, line, b)
    ensures LogInv(b) && Parsed(b.log) == Called(Parsed(a.log), w, InputOf(r))
  {
    hide ParseInv, Fitting, Fits, Parsed;
    AppendFitting(a.log, line);
    CallKeepsInv(Parsed(a.log), w, InputOf(r));
  }

  lemma InvokeKeepsTail(a: Chain, w: nat, r: Request, line: Line, b: Chain)
    requires LogInv(a) && TailInv(a) && InvokeStep(a, w, r, line, b)
    requires Parsed(b.log) == Called(Parsed(a.log), w, InputOf(r))
    ensures TailInv(b)
  {
    hide ParseInv, Fitting, Fits, Parsed, SpecRun, RealTime, DistinctIds;
    var e := Event(w, CallEvent, InputOf(r), r.id);
    TrackedGrow(Parsed(a.log), e, a.accesses);
    NextIdAbsent(Parsed(a.log), a.accesses);
  }

  lemma InvokeKeepsServers(a: Chain, w: nat, r: Request, line: Line, b: Chain)
    requires LogInv(a) && ServersInv(a) && |a.servers| >= 1 && InvokeStep(a, w, r, line, b)
    requires Parsed(b.log) == Called(Parsed(a.log), w, InputOf(r))
    ensures ServersInv(b)
  {
    hide ParseInv, Fitting, Fits, Parsed, SpecRun, RealTime, DistinctIds, PutsOnly;
    var e := Event(w, CallEvent, InputOf(r), r.id);
    forall i: nat | i < |b.servers|
      ensures ServerInv(Parsed(b.log).events, b.requests, i, b.servers[i], b.writes[i])
    {
      assert ServerInv(Parsed(a.log).events, a.requests, i, a.servers[i], a.writes[i]);
      TrackedGrow(Parsed(a.log), e, a.writes[i]);
      NextIdAbsent(Parsed(a.log), a.writes[i]);
    }
  }

  ghost predicate ReturnStep(a: Chain, w: nat, value: InputOutput, line: Line, b: Chain) {
    && w in a.requests
    && (a.requests[w].SetAcked? || a.requests[w].GetFound?)
    && value == (if a.requests[w].SetAcked? then InputOf(a.requests[w])
                 else InputOutput(false, a.requests[w].key, a.requests[w].val))
    && line == (if a.requests[w].SetAcked? then Set(w, a.requests[w].key, a.requests[w].val)
                else Get(w, a.requests[w].key, a.requests[w].val))
    && b == a.(requests := a.requests - {w}, log := a.log + [line])
  }

  lemma ReturnKeepsLog(a: Chain, w: nat, value: InputOutput, line: Line, b: Chain)
    requires LogInv(a) && ReturnStep(a, w, value, line, b)
    ensures LogInv(b) && Parsed(b.log) == Returned(Parsed(a.log), w, value)
    ensures Parsed(a.log).open[w] == a.requests[w].id
  {
    hide ParseInv, Fitting, Parsed;
    var p := Parsed(a.log);
    assert Event(w, CallEvent, InputOf(a.requests[w]), p.open[w]) in p.events;
    AppendFitting(a.log, line);
    LineKeepsInv(p, line);
  }

  lemma ReturnKeepsTail(a: Chain, w: nat, value: InputOutput, line: Line, b: Chain)
    requires LogInv(a) && TailInv(a) && ReturnStep(a, w, value, line, b)
    requires Parsed(b.log) == Returned(Parsed(a.log), w, value) && Parsed(a.log).open[w] == a.requests[w].id
    ensures TailInv(b)
  {
    hide ParseInv, Fitting, Parsed, SpecRun, RealTime, DistinctIds;
    var e := Event(w, ReturnEvent, value, a.requests[w].id);
    TrackedGrow(Parsed(a.log), e, a.accesses);
    var o := if a.requests[w].SetAcked? then SetOp(a.requests[w]) else GetOp(a.requests[w]);
    assert o in a.accesses && o.id == e.id && o.output == e.value;
  }

  lemma ReturnKeepsServers(a: Chain, w: nat, value: InputOutput, line: Line, b: Chain)
    requires LogInv(a) && ServersInv(a) && ReturnStep(a, w, value, line, b)
    requires Parsed(b.log) == Returned(Parsed(a.log), w, value) && Parsed(a.log).open[w] == a.requests[w].id
    ensures ServersInv(b)
  {
    hide ParseInv, Fitting, Parsed, SpecRun, RealTime, DistinctIds, PutsOnly;
    var e := Event(w, ReturnEvent, value, a.requests[w].id);
    forall i: nat | i < |b.servers|
      ensures ServerInv(Parsed(b.log).events, b.requests, i, b.servers[i], b.writes[i])
    {
      assert ServerInv(Parsed(a.log).events, a.requests, i, a.servers[i], a.writes[i]);
      TrackedGrow(Parsed(a.log), e, a.writes[i]);
    }
  }

  lemma ReturnKeepsInv(a: Chain, w: nat, value: InputOutput, line: Line, b: Chain)
    requires Inv(a) && ReturnStep(a, w, value, line, b)
    ensures Inv(b)
  {
    hide LogInv, TailInv, ServersInv, ReturnStep;
    ReturnKeepsLog(a, w, value, line, b);
    ReturnKeepsTail(a, w, value, line, b);
    ReturnKeepsServers(a, w, value, line, b);
  }

  // ------------------------------------------------------------ steps inside the chain

  /** A request changes and the log does not. */
  ghost predicate InnerStep(a: Chain, w: nat, r': Request, b: Chain) {
    && w in a.requests && r'.id == a.requests[w].id && InputOf(r') == InputOf(a.requests[w])
    && b.log == a.log && b.requests == a.requests[w := r']
    && |b.servers| == |a.servers|
  }

  lemma InnerKeepsLog(a: Chain, w: nat, r': Request, b: Chain)
    requires LogInv(a) && InnerStep(a, w, r', b)
    ensures LogInv(b)
  {
    hide ParseInv, Fitting, Parsed;
  }

  /** A list that does not change, for a request about which it says the same as before. */
  lemma SameListHolds(requests: map<nat, Request>, ops: seq<Operation>, w: nat, r': Request, x: Request -> Expected)
    requires w in requests && r'.id == requests[w].id && x(r') == x(requests[w])
    requires forall v <- requests :: Holds(ops, requests[v].id, x(requests[v]))
    ensures var requests' := requests[w := r']; forall v <- requests' :: Holds(ops, requests'[v].id, x(requests'[v]))
  {
    hide Holds;
  }

  /** A list that gains the operation of one request. */
  lemma GrownListHolds(p: Parse, requests: map<nat, Request>, ops: seq<Operation>, w: nat, r': Request, o: Operation,
                       x: Request -> Expected)
    requires ParseInv(p) && p.open.Keys == requests.Keys && forall v <- requests :: p.open[v] == requests[v].id
    requires w in requests && r'.id == requests[w].id == o.id && x(r') == Present(o)
    requires forall v <- requests :: Holds(ops, requests[v].id, x(requests[v]))
    ensures var requests' := requests[w := r'];
            forall v <- requests' :: Holds(ops + [o], requests'[v].id, x(requests'[v]))
  {
    hide WellFormed, CallInv;
    forall v <- requests | v != w ensures requests[v].id != o.id {
    }
  }

  lemma ReplyUpKeepsInv(a: Chain, w: nat, b: Chain)
    requires Inv(a) && ReplyUpStep(a, w, b)
    ensures Inv(b)
  {
    hide ParseInv, Fitting, Parsed, SpecRun, Tracked, Covers, CoversSets, PutsOnly, NoDefault, Downstream;
    var r' := b.requests[w];
    SameListHolds(a.requests, a.accesses, w, r', AtTail);
    forall i: nat | i < |b.servers|
      ensures ServerInv(Parsed(b.log).events, b.requests, i, b.servers[i], b.writes[i])
    {
      assert ServerInv(Parsed(a.log).events, a.requests, i, a.servers[i], a.writes[i]);
      SameListHolds(a.requests, a.writes[i], w, r', r => AtServer(i, r));
    }
  }

  lemma SpecRunPut(ops: seq<Operation>, o: Operation)
    requires o.input.op
    ensures SpecRun(ops + [o]) == (SpecRun(ops).0, SpecRun(ops).1[o.input.key := o.input.value])
  {
    assert (ops + [o])[..|ops|] == ops;
  }

  lemma SpecRunGet(ops: seq<Operation>, o: Operation)
    requires !o.input.op && o.output.key in SpecRun(ops).1 && SpecRun(ops).1[o.output.key] == o.output.value
    ensures SpecRun(ops + [o]) == SpecRun(ops)
  {
    assert (ops + [o])[..|ops|] == ops;
  }

  lemma NoDefaultAppend(ops: seq<Operation>, o: Operation)
    requires NoDefault(ops) && (o.input.op || o.output.key in SpecRun(ops).1)
    ensures NoDefault(ops + [o])
  {
    var ops' := ops + [o];
    forall q | 0 <= q < |ops'| && !ops'[q].input.op ensures ops'[q].output.key in SpecRun(ops'[..q]).1 {
      if q < |ops| {
        assert ops'[..q] == ops[..q];
      } else {
        assert ops'[..q] == ops;
      }
    }
  }

  lemma CoversAppend(events: seq<Event>, ops: seq<Operation>, o: Operation)
    requires Covers(events, ops)
    ensures Covers(events, ops + [o])
  {
    forall e <- events | e.kind.ReturnEvent? ensures exists x <- ops + [o] :: x.id == e.id && x.output == e.value {
      var x :| x in ops && x.id == e.id && x.output == e.value;
      assert x in ops + [o];
    }
  }

  /** The tail performs one access and the specification takes the same step. */
  lemma AccessKeepsTail(a: Chain, w: nat, r': Request, o: Operation, b: Chain)
    requires LogInv(a) && TailInv(a) && InnerStep(a, w, r', b)
    requires AtTail(a.requests[w]) == Absent && AtTail(r') == Present(o) && o.id == r'.id && o.input == InputOf(r')
    requires b.accesses == a.accesses + [o]
    requires if o.input.op then b.servers[Tail(b)] == a.servers[Tail(a)][o.input.key := o.input.value]
             else b.servers[Tail(b)] == a.servers[Tail(a)] && o.output.key in a.servers[Tail(a)]
                  && a.servers[Tail(a)][o.output.key] == o.output.value
    ensures TailInv(b)
  {
    hide Fitting, Parsed, SpecRun, Tracked, Covers, NoDefault, ParseInv;
    assert Holds(a.accesses, a.requests[w].id, Absent);
    TrackedAppend(Parsed(a.log), a.accesses, o, w);
    CoversAppend(Parsed(a.log).events, a.accesses, o);
    if o.input.op {
      SpecRunPut(a.accesses, o);
    } else {
      SpecRunGet(a.accesses, o);
    }
    NoDefaultAppend(a.accesses, o);
    GrownListHolds(Parsed(a.log), a.requests, a.accesses, w, r', o, AtTail);
  }

  lemma ReadTailKeepsInv(a: Chain, w: nat, b: Chain)
    requires Inv(a) && ReadTailStep(a, w, b)
    ensures Inv(b)
  {
    hide LogInv, TailInv, ServersInv;
    InnerKeepsLog(a, w, b.requests[w], b);
    ReadTailKeepsTail(a, w, b);
    ReadTailKeepsServers(a, w, b);
  }

  lemma ReadTailKeepsTail(a: Chain, w: nat, b: Chain)
    requires LogInv(a) && TailInv(a) && ReadTailStep(a, w, b)
    ensures TailInv(b)
  {
    hide LogInv, Parsed, SpecRun, Tracked, Covers, NoDefault, Holds;
    var r' := b.requests[w];
    if r'.GetFound? {
      AccessKeepsTail(a, w, r', GetOp(r'), b);
    } else {
      SameListHolds(a.requests, a.accesses, w, r', AtTail);
    }
  }

  lemma ReadTailKeepsServers(a: Chain, w: nat, b: Chain)
    requires ServersInv(a) && ReadTailStep(a, w, b)
    ensures ServersInv(b)
  {
    hide Parsed, SpecRun, Tracked, CoversSets, PutsOnly, Downstream;
    var r' := b.requests[w];
    forall i: nat | i < |b.servers|
      ensures ServerInv(Parsed(b.log).events, b.requests, i, b.servers[i], b.writes[i])
    {
      assert ServerInv(Parsed(a.log).events, a.requests, i, a.servers[i], a.writes[i]);
      SameListHolds(a.requests, a.writes[i], w, r', r => AtServer(i, r));
    }
  }

  lemma WriteLocalKeepsInv(a: Chain, w: nat, b: Chain)
    requires Inv(a) && WriteLocalStep(a, w, b)
    ensures Inv(b)
  {
    hide LogInv, TailInv, ServersInv;
    InnerKeepsLog(a, w, b.requests[w], b);
    WriteLocalKeepsTail(a, w, b);
    WriteLocalKeepsServers(a, w, b);
  }

  lemma WriteLocalKeepsTail(a: Chain, w: nat, b: Chain)
    requires LogInv(a) && TailInv(a) && WriteLocalStep(a, w, b)
    ensures TailInv(b)
  {
    hide LogInv, Parsed, SpecRun, Tracked, Covers, NoDefault, Holds;
    var r, r' := a.requests[w], b.requests[w];
    if r.server == Tail(a) {
      AccessKeepsTail(a, w, r', SetOp(r), b);
    } else {
      SameListHolds(a.requests, a.accesses, w, r', AtTail);
    }
  }

  lemma WriteLocalKeepsServers(a: Chain, w: nat, b: Chain)
    requires LogInv(a) && ServersInv(a) && WriteLocalStep(a, w, b)
    ensures ServersInv(b)
  {
    hide Fitting, Parsed, SpecRun, Tracked, CoversSets, PutsOnly, ParseInv, Holds;
    var r, r' := a.requests[w], b.requests[w];
    forall i: nat | i < |b.servers|
      ensures ServerInv(Parsed(b.log).events, b.requests, i, b.servers[i], b.writes[i])
    {
      assert ServerInv(Parsed(a.log).events, a.requests, i, a.servers[i], a.writes[i]);
      if i == r.server {
        LocalWriteKeepsServer(a, w, r', i, b);
      } else {
        SameListHolds(a.requests, a.writes[i], w, r', r => AtServer(i, r));
      }
    }
    WriteLocalDownstream(a, w, b);
  }

  lemma LocalWriteKeepsServer(a: Chain, w: nat, r': Request, i: nat, b: Chain)
    requires LogInv(a) && WriteLocalStep(a, w, b) && i == a.requests[w].server && r' == b.requests[w]
    requires ServerInv(Parsed(a.log).events, a.requests, i, a.servers[i], a.writes[i])
    ensures ServerInv(Parsed(b.log).events, b.requests, i, b.servers[i], b.writes[i])
  {
    hide Fitting, Parsed, SpecRun, Tracked, ParseInv;
    var r := a.requests[w];
    var o := SetOp(r);
    assert Holds(a.writes[i], r.id, AtServer(i, r));
    TrackedAppend(Parsed(a.log), a.writes[i], o, w);
    SpecRunPut(a.writes[i], o);
    GrownListHolds(Parsed(a.log), a.requests, a.writes[i], w, r', o, r => AtServer(i, r));
  }

  lemma WriteLocalDownstream(a: Chain, w: nat, b: Chain)
    requires ServersInv(a) && WriteLocalStep(a, w, b)
    ensures Downstream(b.writes)
  {
    hide Parsed, SpecRun, Tracked, CoversSets, PutsOnly;
    var r := a.requests[w];
    forall i, j, o | 0 <= i <= j < |b.writes| && o in b.writes[j] ensures o in b.writes[i] {
      if o !in a.writes[j] {
        assert j == r.server && o == SetOp(r);
        if i < j {
          assert ServerInv(Parsed(a.log).events, a.requests, i, a.servers[i], a.writes[i]);
          assert Holds(a.writes[i], r.id, AtServer(i, r));
        }
      }
    }
  }

  lemma NextKeepsInv(a: Chain, step: Step, b: Chain)
    requires Inv(a) && Next(a, step, b)
    ensures Inv(b)
  {
    hide Inv, Fits, Parsed;
    match step
    case InvokeSet(w, key, val) => InvokeSetIsInvoke(a, w, key, val, b);
      InvokeKeepsInv(a, w, b.requests[w], Setting(w, key, val), b);
    case InvokeGet(w, key) => InvokeGetIsInvoke(a, w, key, b);
      InvokeKeepsInv(a, w, b.requests[w], Getting(w, key), b);
    case WriteLocal(w) => WriteLocalKeepsInv(a, w, b);
    case ReplyUp(w) => ReplyUpKeepsInv(a, w, b);
    case ReturnSet(w) => ReturnKeepsInv(a, w, InputOf(a.requests[w]), Set(w, a.requests[w].key, a.requests[w].val), b);
    case ReadTail(w) => ReadTailKeepsInv(a, w, b);
    case ReturnGet(w) =>
      ReturnKeepsInv(a, w, InputOutput(false, a.requests[w].key, a.requests[w].val),
                     Get(w, a.requests[w].key, a.requests[w].val), b);
  }

  lemma InvokeSetIsInvoke(a: Chain, w: nat, key: string, val: string, b: Chain)
    requires Inv(a) && InvokeSetStep(a, w, key, val, b)
    ensures InvokeStep(a, w, b.requests[w], Setting(w, key, val), b)
  {
    hide TailInv, ServersInv, ParseInv, Fitting, Parsed;
  }

  lemma InvokeGetIsInvoke(a: Chain, w: nat, key: string, b: Chain)
    requires Inv(a) && InvokeGetStep(a, w, key, b)
    ensures InvokeStep(a, w, b.requests[w], Getting(w, key), b)
  {
    hide TailInv, ServersInv, ParseInv, Fitting, Parsed;
  }

  lemma {:induction false} RunKeepsInv(states: seq<Chain>, steps: seq<Step>, i: nat)
    requires Run(states, steps) && Inv(states[0]) && i < |states|
    ensures Inv(states[i])
  {
    hide Inv, Next;
    if i > 0 {
      RunKeepsInv(states, steps, i - 1);
      NextKeepsInv(states[i - 1], steps[i - 1], states[i]);
    }
  }

  lemma ReachableInv(c: Chain)
    requires Reachable(c)
    ensures Inv(c)
  {
    hide Init, Next, Inv;
    var states, steps :| Run(states, steps) && Init(states[0]) && states[|steps|] == c;
    InitInv(states[0]);
    RunKeepsInv(states, steps, |steps|);
  }
}
