/** The client log of the key-value store, its parser, and linearizability of the parsed history. */
module ClientLog {

  /** A log line, already recognised; `Other` is any line the parser does not recognise. */
  datatype Line =
    | Setting(worker: nat, key: string, val: string)
    | Set(worker: nat, key: string, val: string)
    | Getting(worker: nat, key: string)
    | Get(worker: nat, key: string, val: string)
    | Other

  /** `op` is true for a put. */
  datatype InputOutput = InputOutput(op: bool, key: string, value: string)

  datatype Kind = CallEvent | ReturnEvent

  datatype Event = Event(clientId: nat, kind: Kind, value: InputOutput, id: nat)

  // ------------------------------------------------------------ the parser

  /** The parser's variables: `open` is `procIdMap`, `next` the next operation id. */
  datatype Parse = Parse(events: seq<Event>, open: map<nat, nat>, next: nat)

  /** A lookup in a Go map gives 0 for an absent worker. */
  function OpenId(open: map<nat, nat>, worker: nat): nat {
    if worker in open then open[worker] else 0
  }

  function Called(p: Parse, worker: nat, value: InputOutput): Parse {
    Parse(p.events + [Event(worker, CallEvent, value, p.next)], p.open[worker := p.next], p.next + 1)
  }

  function Returned(p: Parse, worker: nat, value: InputOutput): Parse {
    Parse(p.events + [Event(worker, ReturnEvent, value, OpenId(p.open, worker))], p.open - {worker}, p.next)
  }

  function ParseLine(p: Parse, line: Line): Parse {
    match line
    case Setting(w, k, v) => Called(p, w, InputOutput(true, k, v))
    case Set(w, k, v) => Returned(p, w, InputOutput(true, k, v))
    case Getting(w, k) => Called(p, w, InputOutput(false, k, ""))
    case Get(w, k, v) => Returned(p, w, InputOutput(false, k, v))
    case Other => p
  }

  function Parsed(lines: seq<Line>): Parse {
    if lines == [] then Parse([], map[], 0)
    else ParseLine(Parsed(lines[..|lines| - 1]), lines[|lines| - 1])
  }

  method ParseLog(lines: seq<Line>) returns (events: seq<Event>)
    ensures events == Parsed(lines).events
  {
    events := [];
    var id := 0;
    var procIdMap: map<nat, nat> := map[];
    var i := 0;
    while i < |lines|
      invariant 0 <= i <= |lines|
      invariant Parse(events, procIdMap, id) == Parsed(lines[..i])
    {
      assert lines[..i + 1][..i] == lines[..i];
      match lines[i] {
        case Setting(w, k, v) =>
          events := events + [Event(w, CallEvent, InputOutput(true, k, v), id)];
          procIdMap := procIdMap[w := id];
          id := id + 1;
        case Set(w, k, v) =>
          events := events + [Event(w, ReturnEvent, InputOutput(true, k, v), OpenId(procIdMap, w))];
          procIdMap := procIdMap - {w};
        case Getting(w, k) =>
          events := events + [Event(w, CallEvent, InputOutput(false, k, ""), id)];
          procIdMap := procIdMap[w := id];
          id := id + 1;
        case Get(w, k, v) =>
          events := events + [Event(w, ReturnEvent, InputOutput(false, k, v), OpenId(procIdMap, w))];
          procIdMap := procIdMap - {w};
        case Other =>
      }
      i := i + 1;
    }
    assert lines[..i] == lines;
  }

  // ------------------------------------------------------------ well-formed histories

  /** The worker's last line if that is a call, `Other` if the worker has no call open. */
  function OpenCall(lines: seq<Line>, w: nat): Line {
    if lines == [] then Other
    else
      var last := lines[|lines| - 1];
      if last.Other? || last.worker != w then OpenCall(lines[..|lines| - 1], w)
      else if last.Setting? || last.Getting? then last
      else Other
  }

  /** A call needs a worker without an open call; a return needs its worker's matching call open. */
  ghost predicate Follows(open: Line, line: Line) {
    match line
    case Setting(w, k, v) => open == Other
    case Getting(w, k) => open == Other
    case Set(w, k, v) => open == Setting(w, k, v)
    case Get(w, k, v) => open == Getting(w, k)
    case Other => true
  }

  /** Each worker alternates a call with the matching return. */
  ghost predicate Alternates(lines: seq<Line>) {
    forall i :: 0 <= i < |lines| && !lines[i].Other? ==> Follows(OpenCall(lines[..i], lines[i].worker), lines[i])
  }

  /** The same in the parser's terms: does `line` answer a call in `procIdMap`, or call when none is there? */
  ghost predicate Fits(p: Parse, line: Line) {
    match line
    case Setting(w, k, v) => w !in p.open
    case Getting(w, k) => w !in p.open
    case Set(w, k, v) => w in p.open && Event(w, CallEvent, InputOutput(true, k, v), p.open[w]) in p.events
    case Get(w, k, v) => w in p.open && Event(w, CallEvent, InputOutput(false, k, ""), p.open[w]) in p.events
    case Other => true
  }

  ghost predicate Fitting(lines: seq<Line>) {
    forall i :: 0 <= i < |lines| ==> Fits(Parsed(lines[..i]), lines[i])
  }

  function CallInput(line: Line): InputOutput
    requires line.Setting? || line.Getting?
  {
    if line.Setting? then InputOutput(true, line.key, line.val) else InputOutput(false, line.key, "")
  }

  /** `procIdMap` holds exactly the open calls, each with the id of its own event; call ids are unique. */
  ghost predicate Tracks(p: Parse, lines: seq<Line>) {
    && (forall w :: w in p.open <==> OpenCall(lines, w) != Other)
    && (forall w :: w in p.open ==> OpenIs(p, w, OpenCall(lines, w)))
    && (forall e :: e in p.events && e.kind.CallEvent? ==> e.id < p.next)
    && (forall d, e :: d in p.events && e in p.events && d.kind.CallEvent? && e.kind.CallEvent? && d.id == e.id ==>
          d == e)
  }

  ghost predicate OpenIs(p: Parse, w: nat, line: Line) {
    && (line.Setting? || line.Getting?) && w in p.open && line.worker == w
    && Event(w, CallEvent, CallInput(line), p.open[w]) in p.events
  }

  /** For every log, alternating or not, the parser's map tracks the open calls. */
  lemma {:induction false} ParserTracks(lines: seq<Line>)
    ensures Tracks(Parsed(lines), lines)
  {
    if lines != [] {
      ParserTracks(lines[..|lines| - 1]);
      LineTracks(Parsed(lines[..|lines| - 1]), lines[..|lines| - 1], lines[|lines| - 1]);
      assert lines == lines[..|lines| - 1] + [lines[|lines| - 1]];
    }
  }

  lemma LineTracks(p: Parse, lines: seq<Line>, line: Line)
    requires Tracks(p, lines)
    ensures Tracks(ParseLine(p, line), lines + [line])
  {
    hide OpenCall, OpenIs;
    LineTracksIds(p, lines, line);
    forall w
      ensures w in ParseLine(p, line).open <==> OpenCall(lines + [line], w) != Other
      ensures w in ParseLine(p, line).open ==> OpenIs(ParseLine(p, line), w, OpenCall(lines + [line], w))
    {
      LineTracksWorker(p, lines, line, w);
    }
  }

  lemma LineTracksIds(p: Parse, lines: seq<Line>, line: Line)
    requires Tracks(p, lines)
    ensures var p' := ParseLine(p, line);
      && (forall e :: e in p'.events && e.kind.CallEvent? ==> e.id < p'.next)
      && (forall d, e :: d in p'.events && e in p'.events && d.kind.CallEvent? && e.kind.CallEvent? && d.id == e.id ==>
          d == e)
  {
    hide OpenCall, OpenIs;
  }

  lemma LineTracksWorker(p: Parse, lines: seq<Line>, line: Line, w: nat)
    requires w in p.open <==> OpenCall(lines, w) != Other
    requires w in p.open ==> OpenIs(p, w, OpenCall(lines, w))
    ensures var p' := ParseLine(p, line);
      && (w in p'.open <==> OpenCall(lines + [line], w) != Other)
      && (w in p'.open ==> OpenIs(p', w, OpenCall(lines + [line], w)))
  {
    OpenNext(lines, line, w);
    hide OpenCall;
  }

  lemma OpenNext(lines: seq<Line>, line: Line, w: nat)
    ensures OpenCall(lines + [line], w) == LaterOpen(OpenCall(lines, w), w, line)
  {
    assert (lines + [line])[..|lines|] == lines;
  }

  /** The open call of `w` after one more line. */
  function LaterOpen(open: Line, w: nat, line: Line): Line {
    if line.Other? || line.worker != w then open else if line.Setting? || line.Getting? then line else Other
  }

  /** What a line demands of the lines before it is what the parser needs to find in its map. */
  lemma FitsIsFollows(lines: seq<Line>, line: Line)
    ensures Fits(Parsed(lines), line) <==> line.Other? || Follows(OpenCall(lines, line.worker), line)
  {
    ParserTracks(lines);
    hide Parsed, OpenCall;
    var p := Parsed(lines);
    if !line.Other? && line.worker in p.open {
      var w := line.worker;
      var open := OpenCall(lines, w);
      assert OpenIs(p, w, open);
      assert Event(w, CallEvent, CallInput(open), p.open[w]) in p.events;
    }
  }

  lemma AlternatesIsFitting(lines: seq<Line>)
    ensures Alternates(lines) <==> Fitting(lines)
  {
    hide Follows, Fits, Parsed, OpenCall;
    forall i | 0 <= i < |lines|
      ensures Fits(Parsed(lines[..i]), lines[i]) <==>
        lines[i].Other? || Follows(OpenCall(lines[..i], lines[i].worker), lines[i])
    {
      FitsIsFollows(lines[..i], lines[i]);
    }
  }

  ghost predicate Matches(call: Event, ret: Event) {
    && call.kind.CallEvent? && ret.kind.ReturnEvent?
    && call.id == ret.id && call.clientId == ret.clientId
    && call.value.op == ret.value.op && call.value.key == ret.value.key
    && (call.value.op ==> call.value.value == ret.value.value)
  }

  /** `j` is a return whose call is at some earlier `i`. */
  ghost predicate Answered(events: seq<Event>, j: nat) {
    exists i: nat :: i < j < |events| && Matches(events[i], events[j])
  }

  /** Ids name one call each, in the order of the calls, and every return answers one earlier call. */
  ghost predicate WellFormed(events: seq<Event>) {
    && (forall i, j :: 0 <= i < j < |events| && events[i].kind == events[j].kind == CallEvent ==>
        events[i].id < events[j].id)
    && (forall j: nat :: j < |events| && events[j].kind.ReturnEvent? ==> Answered(events, j))
    && (forall i, j :: 0 <= i < j < |events| && events[i].kind == events[j].kind == ReturnEvent ==>
        events[i].id != events[j].id)
  }

  ghost predicate HasCall(events: seq<Event>, worker: nat, id: nat) {
    exists e <- events :: e.kind.CallEvent? && e.clientId == worker && e.id == id
  }

  ghost predicate HasReturn(events: seq<Event>, id: nat) {
    exists e <- events :: e.kind.ReturnEvent? && e.id == id
  }

  /** The open calls have distinct ids, all below the next one, and no return yet. */
  ghost predicate OpenInv(p: Parse) {
    && (forall e <- p.events :: e.id < p.next)
    && (forall w <- p.open :: p.open[w] < p.next && HasCall(p.events, w, p.open[w]) && !HasReturn(p.events, p.open[w]))
    && (forall v, w | v in p.open && w in p.open && p.open[v] == p.open[w] :: v == w)
  }

  /** A call is still open at its worker, or it has returned. */
  ghost predicate CallInv(p: Parse) {
    forall e <- p.events | e.kind.CallEvent? ::
      (e.clientId in p.open && p.open[e.clientId] == e.id) || HasReturn(p.events, e.id)
  }

  ghost predicate ParseInv(p: Parse) {
    WellFormed(p.events) && OpenInv(p) && CallInv(p)
  }

  lemma HasAppend(events: seq<Event>, e: Event, w: nat, id: nat)
    ensures HasCall(events + [e], w, id) <==>
      HasCall(events, w, id) || (e.kind.CallEvent? && e.clientId == w && e.id == id)
    ensures HasReturn(events + [e], id) <==> HasReturn(events, id) || (e.kind.ReturnEvent? && e.id == id)
  {
    assert forall x :: x in events + [e] <==> x in events || x == e;
  }

  lemma AppendWellFormed(events: seq<Event>, e: Event)
    requires WellFormed(events)
    requires e.kind.CallEvent? ==> forall x <- events :: x.id < e.id
    requires e.kind.ReturnEvent? ==> !HasReturn(events, e.id) && exists c <- events :: Matches(c, e)
    ensures WellFormed(events + [e])
  {
    var events' := events + [e];
    hide Matches;
    forall j: nat | j < |events'| && events'[j].kind.ReturnEvent? ensures Answered(events', j) {
      if j < |events| {
        assert Answered(events, j);
        var i: nat :| i < j && Matches(events[i], events[j]);
        assert Matches(events'[i], events'[j]);
      } else {
        var c :| c in events && Matches(c, e);
        var i :| 0 <= i < |events| && events[i] == c;
        assert Matches(events'[i], events'[j]);
      }
    }
  }

  lemma AppendCallInv(p: Parse, e: Event, open: map<nat, nat>, next: nat)
    requires CallInv(p)
    requires e.kind.CallEvent? ==> e.clientId in open && open[e.clientId] == e.id
    requires forall w <- p.open :: (w in open && open[w] == p.open[w]) || (e.kind.ReturnEvent? && e.id == p.open[w])
    ensures CallInv(Parse(p.events + [e], open, next))
  {
    forall x <- p.events + [e] | x.kind.CallEvent?
      ensures (x.clientId in open && open[x.clientId] == x.id) || HasReturn(p.events + [e], x.id)
    {
      HasAppend(p.events, e, x.clientId, x.id);
      if x in p.events && HasReturn(p.events, x.id) {
        assert HasReturn(p.events + [e], x.id);
      }
    }
  }

  lemma AppendOpenInv(p: Parse, e: Event, w: nat, id: nat)
    requires OpenInv(p) && HasCall(p.events, w, id) && !HasReturn(p.events, id)
    ensures HasCall(p.events + [e], w, id)
    ensures !(e.kind.ReturnEvent? && e.id == id) ==> !HasReturn(p.events + [e], id)
  {
    HasAppend(p.events, e, w, id);
  }

  lemma CallKeepsInv(p: Parse, w: nat, value: InputOutput)
    requires ParseInv(p) && w !in p.open
    ensures ParseInv(Called(p, w, value))
  {
    var e := Event(w, CallEvent, value, p.next);
    var p' := Called(p, w, value);
    assert forall x <- p.events :: x.id < e.id;
    AppendWellFormed(p.events, e);
    AppendCallInv(p, e, p'.open, p'.next);
    hide WellFormed, CallInv;
    HasAppend(p.events, e, w, p.next);
    assert !HasReturn(p.events, p.next);
    forall x <- p'.open
      ensures p'.open[x] < p'.next && HasCall(p'.events, x, p'.open[x]) && !HasReturn(p'.events, p'.open[x])
    {
      if x != w {
        AppendOpenInv(p, e, x, p.open[x]);
      }
    }
    hide HasCall, HasReturn;
  }

  lemma ReturnKeepsOpenInv(p: Parse, w: nat, e: Event)
    requires OpenInv(p) && w in p.open && e.kind.ReturnEvent? && e.id == p.open[w]
    ensures OpenInv(Parse(p.events + [e], p.open - {w}, p.next))
  {
    hide HasCall, HasReturn;
    forall x <- p.open | x != w
      ensures HasCall(p.events + [e], x, p.open[x]) && !HasReturn(p.events + [e], p.open[x])
    {
      AppendOpenInv(p, e, x, p.open[x]);
    }
  }

  lemma ReturnKeepsInv(p: Parse, w: nat, value: InputOutput)
    requires ParseInv(p) && w in p.open
    requires exists c <- p.events :: Matches(c, Event(w, ReturnEvent, value, p.open[w]))
    ensures ParseInv(Returned(p, w, value))
  {
    hide Matches, HasCall, WellFormed, CallInv;
    var e := Event(w, ReturnEvent, value, p.open[w]);
    AppendWellFormed(p.events, e);
    AppendCallInv(p, e, p.open - {w}, p.next);
    ReturnKeepsOpenInv(p, w, e);
  }

  lemma LineKeepsInv(p: Parse, line: Line)
    requires ParseInv(p) && Fits(p, line)
    ensures ParseInv(ParseLine(p, line))
  {
    hide ParseInv;
    match line
    case Setting(w, k, v) => CallKeepsInv(p, w, InputOutput(true, k, v));
    case Getting(w, k) => CallKeepsInv(p, w, InputOutput(false, k, ""));
    case Set(w, k, v) =>
      assert Matches(Event(w, CallEvent, InputOutput(true, k, v), p.open[w]),
                     Event(w, ReturnEvent, InputOutput(true, k, v), p.open[w]));
      ReturnKeepsInv(p, w, InputOutput(true, k, v));
    case Get(w, k, v) =>
      assert Matches(Event(w, CallEvent, InputOutput(false, k, ""), p.open[w]),
                     Event(w, ReturnEvent, InputOutput(false, k, v), p.open[w]));
      ReturnKeepsInv(p, w, InputOutput(false, k, v));
    case Other =>
  }

  /** An alternating log parses to a well-formed history. */
  lemma ParsedWellFormed(lines: seq<Line>)
    requires Alternates(lines)
    ensures WellFormed(Parsed(lines).events) && ParseInv(Parsed(lines))
  {
    AlternatesIsFitting(lines);
    FittingParses(lines);
  }

  lemma {:induction false} FittingParses(lines: seq<Line>)
    requires Fitting(lines)
    ensures WellFormed(Parsed(lines).events) && ParseInv(Parsed(lines))
  {
    hide Fits, WellFormed, OpenInv, CallInv;
    if lines == [] {
      NothingParsed();
    } else {
      var n := |lines| - 1;
      FittingPrefix(lines, n);
      FittingParses(lines[..n]);
      LineKeepsInv(Parsed(lines[..n]), lines[n]);
    }
  }

  lemma NothingParsed()
    ensures ParseInv(Parsed([]))
  {
  }

  lemma FittingPrefix(lines: seq<Line>, n: nat)
    requires Fitting(lines) && n <= |lines|
    ensures Fitting(lines[..n])
  {
    hide Fits, Parsed;
    forall i | 0 <= i < n ensures Fits(Parsed(lines[..n][..i]), lines[..n][i]) {
      assert lines[..n][..i] == lines[..i];
    }
  }

  /** The event a recognised line becomes, up to its id. */
  ghost predicate Renders(line: Line, e: Event) {
    match line
    case Setting(w, k, v) => e == Event(w, CallEvent, InputOutput(true, k, v), e.id)
    case Set(w, k, v) => e == Event(w, ReturnEvent, InputOutput(true, k, v), e.id)
    case Getting(w, k) => e == Event(w, CallEvent, InputOutput(false, k, ""), e.id)
    case Get(w, k, v) => e == Event(w, ReturnEvent, InputOutput(false, k, v), e.id)
    case Other => false
  }

  function Recognised(lines: seq<Line>): seq<Line> {
    if lines == [] then []
    else
      var init := Recognised(lines[..|lines| - 1]);
      if lines[|lines| - 1].Other? then init else init + [lines[|lines| - 1]]
  }

  /** The history is the recognised lines, one event each, in log order. */
  lemma {:induction false} ParsedKeepsOrder(lines: seq<Line>)
    ensures |Parsed(lines).events| == |Recognised(lines)|
    ensures forall i :: 0 <= i < |Recognised(lines)| ==> Renders(Recognised(lines)[i], Parsed(lines).events[i])
  {
    if lines != [] {
      ParsedKeepsOrder(lines[..|lines| - 1]);
    }
  }

  /** How many calls there are. */
  function Calls(lines: seq<Line>): nat {
    if lines == [] then 0
    else
      var last := lines[|lines| - 1];
      Calls(lines[..|lines| - 1]) + if last.Setting? || last.Getting? then 1 else 0
  }

  /** Line `j` is a call of `w` and the worker's last line. */
  ghost predicate OpenedAt(lines: seq<Line>, w: nat, j: nat) {
    && j < |lines| && (lines[j].Setting? || lines[j].Getting?) && lines[j].worker == w
    && forall x :: j < x < |lines| ==> lines[x].Other? || lines[x].worker != w
  }

  lemma {:induction false} ParserCounts(lines: seq<Line>, w: nat)
    ensures Parsed(lines).next == Calls(lines)
    ensures w in Parsed(lines).open ==>
      exists j: nat :: OpenedAt(lines, w, j) && Parsed(lines).open[w] == Calls(lines[..j])
    ensures w !in Parsed(lines).open ==> forall j: nat :: !OpenedAt(lines, w, j)
  {
    if lines != [] {
      var n := |lines| - 1;
      var init := lines[..n];
      ParserCounts(init, w);
      forall j: nat | j < n
        ensures OpenedAt(lines, w, j) <==> OpenedAt(init, w, j) && (lines[n].Other? || lines[n].worker != w)
        ensures lines[..j] == init[..j]
      {
      }
      if !lines[n].Other? && lines[n].worker == w {
        assert lines[n].Setting? || lines[n].Getting? ==> OpenedAt(lines, w, n);
      } else if w in Parsed(init).open {
        var j: nat :| OpenedAt(init, w, j) && Parsed(init).open[w] == Calls(init[..j]);
        assert OpenedAt(lines, w, j);
      }
    }
  }

  /**
   * The id of every event, of any log: calls are numbered from zero, and a return has the number of its worker's open
   * call, or zero if there is none.
   */
  lemma ParsedIds(lines: seq<Line>, line: Line)
    requires !line.Other?
    ensures var events := Parsed(lines + [line]).events;
      && events != [] && events[..|events| - 1] == Parsed(lines).events
      && var id := events[|events| - 1].id;
      if line.Setting? || line.Getting? then id == Calls(lines)
      else
        || (exists j: nat :: OpenedAt(lines, line.worker, j) && id == Calls(lines[..j]))
        || (id == 0 && forall j: nat :: !OpenedAt(lines, line.worker, j))
  {
    assert (lines + [line])[..|lines|] == lines;
    ParserCounts(lines, line.worker);
  }

  // ------------------------------------------------------------ the sequential specification

  type KV = map<string, string>

  /** `crModel.Step`: a put always succeeds, a get must see the stored value, or "0" if none. */
  function Step(m: KV, input: InputOutput, output: InputOutput): (bool, KV) {
    if input.op then (true, m[input.key := input.value])
    else if output.key in m then (m[output.key] == output.value, m)
    else (output.value == "0", m)
  }

  /** An operation with its result. */
  datatype Operation = Operation(id: nat, input: InputOutput, output: InputOutput)

  /** Runs operations one after the other: are all results right, and what is the final state? */
  function SpecRun(ops: seq<Operation>): (bool, KV) {
    if ops == [] then (true, map[])
    else
      var (ok, m) := SpecRun(ops[..|ops| - 1]);
      var last := ops[|ops| - 1];
      var (good, m') := Step(m, last.input, last.output);
      (ok && good, m')
  }

  /** `ops[j]` is the last put of `key` before position `i`. */
  ghost predicate LastPut(ops: seq<Operation>, i: nat, key: string, j: int)
    requires i <= |ops|
  {
    && 0 <= j < i && ops[j].input.op && ops[j].input.key == key
    && forall x :: j < x < i && ops[x].input.op ==> ops[x].input.key != key
  }

  ghost predicate NoPut(ops: seq<Operation>, i: nat, key: string)
    requires i <= |ops|
  {
    forall x :: 0 <= x < i && ops[x].input.op ==> ops[x].input.key != key
  }

  /** The get at `i` returned the value of the last put of its key before it, or "0" if there is none. */
  ghost predicate ReadsLastPut(ops: seq<Operation>, i: nat)
    requires i < |ops|
  {
    var seen := ops[i].output;
    || (NoPut(ops, i, seen.key) && seen.value == "0")
    || exists j :: LastPut(ops, i, seen.key, j) && seen.value == ops[j].input.value
  }

  /** The final state holds, for each key, the value of its last put. */
  lemma {:induction false} FinalStateIsLastPut(ops: seq<Operation>, key: string)
    ensures key in SpecRun(ops).1 ==>
      exists j :: LastPut(ops, |ops|, key, j) && SpecRun(ops).1[key] == ops[j].input.value
    ensures key !in SpecRun(ops).1 ==> NoPut(ops, |ops|, key)
  {
    if ops != [] {
      var n := |ops| - 1;
      var init := ops[..n];
      FinalStateIsLastPut(init, key);
      if ops[n].input.op && ops[n].input.key == key {
        assert LastPut(ops, n + 1, key, n);
      } else if key in SpecRun(init).1 {
        var j :| LastPut(init, n, key, j) && SpecRun(init).1[key] == init[j].input.value;
        assert LastPut(ops, n + 1, key, j);
      }
    }
  }

  /** A prefix of a run says the same about its gets. */
  lemma ReadsInPrefix(ops: seq<Operation>, n: nat, i: nat)
    requires i < n <= |ops|
    ensures ReadsLastPut(ops[..n], i) <==> ReadsLastPut(ops, i)
  {
    forall j ensures LastPut(ops[..n], i, ops[i].output.key, j) <==> LastPut(ops, i, ops[i].output.key, j) {
    }
  }

  /** A list of operations is a run of the specification exactly if every get returned the last put of its key. */
  lemma {:induction false} SpecRunReadsLastPuts(ops: seq<Operation>)
    ensures SpecRun(ops).0 <==> forall i :: 0 <= i < |ops| && !ops[i].input.op ==> ReadsLastPut(ops, i)
  {
    hide Step, ReadsLastPut;
    if ops != [] {
      var n := |ops| - 1;
      var init := ops[..n];
      SpecRunReadsLastPuts(init);
      forall i | 0 <= i < n ensures ReadsLastPut(init, i) <==> ReadsLastPut(ops, i) {
        ReadsInPrefix(ops, n, i);
      }
      LastReadIsStep(ops);
      assert SpecRun(ops).0 <==> SpecRun(init).0 && Step(SpecRun(init).1, ops[n].input, ops[n].output).0;
    }
  }

  lemma LastReadIsStep(ops: seq<Operation>)
    requires ops != []
    ensures var n := |ops| - 1;
      Step(SpecRun(ops[..n]).1, ops[n].input, ops[n].output).0 <==> ops[n].input.op || ReadsLastPut(ops, n)
  {
    var n := |ops| - 1;
    var init, key := ops[..n], ops[n].output.key;
    FinalStateIsLastPut(init, key);
    forall j ensures LastPut(init, n, key, j) <==> LastPut(ops, n, key, j) {
    }
    hide SpecRun;
    if j :| LastPut(ops, n, key, j) {
      forall x | LastPut(ops, n, key, x) ensures x == j {
      }
    }
  }

  // ------------------------------------------------------------ linearizability

  ghost predicate DistinctIds(ops: seq<Operation>) {
    forall p, q :: 0 <= p < q < |ops| ==> ops[p].id != ops[q].id
  }

  /** Every operation was called with this input. */
  ghost predicate AllCalled(events: seq<Event>, ops: seq<Operation>) {
    forall o <- ops :: exists w :: Event(w, CallEvent, o.input, o.id) in events
  }

  /** Every operation that returned is present with the result it returned. */
  ghost predicate Covers(events: seq<Event>, ops: seq<Operation>) {
    forall e <- events | e.kind.ReturnEvent? :: exists o <- ops :: o.id == e.id && o.output == e.value
  }

  /** An operation that returned before another was called comes first. */
  ghost predicate RealTime(events: seq<Event>, ops: seq<Operation>) {
    forall i, j, p, q | 0 <= i < j < |events| && 0 <= p < |ops| && 0 <= q < |ops|
      && events[i].kind.ReturnEvent? && events[j].kind.CallEvent?
      && ops[p].id == events[i].id && ops[q].id == events[j].id :: p < q
  }

  ghost predicate IsLinearization(events: seq<Event>, ops: seq<Operation>) {
    && DistinctIds(ops)
    && AllCalled(events, ops)
    && Covers(events, ops)
    && RealTime(events, ops)
    && SpecRun(ops).0
  }

  ghost predicate Linearizable(events: seq<Event>) {
    exists ops :: IsLinearization(events, ops)
  }
}
