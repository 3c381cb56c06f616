/** Without any further crash, the checkpointed word count can finish from wherever it is. */
module DataflowFinish {
  import opened WordCount
  import opened Dataflow
  import opened DataflowInv
  import opened DataflowBase
  import opened DataflowSteps
  import opened DataflowTheorems
  import opened DataflowLive
  import opened DataflowRuns

  /** Nothing crashes, and mappers restarted in the first epoch do nothing before the rollback. */
  const QUIETLY := Rules({}, false)

  /** A crash-free continuation of a run for which the guarantees hold. */
  ghost predicate OnTheWay(o: System, s: System, may: set<Kind>) {
    && Reachable(o, may) && RoundCp !in may && FinalCp !in may && o.c.resets
    && Leads(o, s, QUIETLY)
  }

  lemma {:induction false} PathKeepsChoice(run: seq<System>, steps: seq<Step>, rules: Rules, i: nat)
    requires Path(run, steps, rules) && i <= |steps|
    ensures run[i].c.resets == run[0].c.resets && run[i].files == run[0].files
  {
    hide Next, Allowed, Shape;
    if 0 < i {
      PathKeepsChoice(run, steps, rules, i - 1);
      assert Next(run[i - 1], run[i - 1 + 1], steps[i - 1]);
      ResetsKept(run[i - 1], run[i], steps[i - 1]);
    }
  }

  /** Whatever happens on the way, all that is known about reachable states holds. */
  lemma Facts(o: System, s: System, may: set<Kind>)
    requires OnTheWay(o, s, may)
    ensures Reachable(s, may) && s.c.resets && s.files == o.files && Known(s) && Live(s) && Shape(s)
  {
    hide Known, Live, Reachable, Next, Allowed, Shape;
    ReachOn(o, s, QUIETLY, may);
    var run, steps :| Path(run, steps, QUIETLY) && run[0] == o && run[|steps|] == s;
    PathKeepsChoice(run, steps, QUIETLY, |steps|);
    ReachableLive(s, may);
    KnownShape(s);
  }

  lemma Go(o: System, s: System, t: System, step: Step, may: set<Kind>)
    requires OnTheWay(o, s, may) && Next(s, t, step) && Allowed(s, step, QUIETLY)
    ensures OnTheWay(o, t, may)
  {
    hide Reachable, Leads, Next, Allowed;
    Extend(o, s, t, step, QUIETLY);
  }

  /** While all is calm, no mapper is one that was restarted. */
  lemma NoneEarly(s: System)
    requires Known(s) && !s.c.alarm
    ensures forall m :: !Early(s, m)
  {
    forall m | Early(s, m) ensures false {
      CalmMapper(s, m);
    }
  }

  // ------------------------------------------------------------ commands

  /** A mapper handles the first command in its queue. */
  lemma HandleOne(o: System, s: System, may: set<Kind>, m: nat) returns (t: System)
    requires OnTheWay(o, s, may) && Calm(s) && m < |s.mappers| && s.mappers[m].link.cmds != []
    ensures OnTheWay(o, t, may) && |t.mappers| == |s.mappers|
    ensures t == s.(mappers := s.mappers[m := t.mappers[m]], channels := t.channels) && t.mappers[m].up
    ensures t.mappers[m].link.cmds == s.mappers[m].link.cmds[1..]
  {
    hide OnTheWay, Known, Live, Intact, Early;
    Facts(o, s, may);
    NoneEarly(s);
    var a := s.mappers[m];
    match a.link.cmds[0]
    case Checkpoint(k, rid) =>
      if rid != a.rid {
        t := s.(mappers := s.mappers[m := a.(link := Pop(a.link))]);
      } else {
        t := s.(mappers := s.mappers[m := Checkpointed(a, Intact(s.reducers), true)],
                channels := s.channels[m := Marked(s.channels[m], Marker(k, rid), {0, 1}, a.conns)]);
      }
      assert MapperCheckpointStep(s, t, m, {0, 1});
      Go(o, s, t, MapperCheckpoint(m, {0, 1}), may);
    case Recover(rid, from) =>
      FileIsThere(s, m);
      t := s.(mappers := s.mappers[m :=
        a.(cursor := SavedCursor(a, from), rid := rid, conns := Connected(s.reducers),
           stage := Joining(a.stage, rid, s.c.epoch), link := Told(Pop(a.link), RecoveryAck(rid)))]);
      assert MapperRecoverStep(s, t, m);
      Go(o, s, t, MapperRecover(m), may);
  }

  lemma FileIsThere(s: System, m: nat)
    requires Known(s) && m < |s.mappers| && s.mappers[m].link.cmds != [] && s.mappers[m].link.cmds[0].Recover?
    ensures var from := s.mappers[m].link.cmds[0].from; from < 0 || from in s.mappers[m].saved
  {
    hide Inv, OutAlarms, LinkBase, ReducersBase, ChannelsBase, Undecided, RoundComplete;
    MapperBaseAt(s, m);
    assert MapperCmdBase(s.mappers[m], 0, s.c);
  }

  lemma {:induction false} HandleMapper(o: System, s: System, may: set<Kind>, m: nat) returns (t: System)
    requires OnTheWay(o, s, may) && Calm(s) && m < |s.mappers|
    ensures OnTheWay(o, t, may) && Calm(t) && |t.mappers| == |s.mappers|
    ensures t == s.(mappers := s.mappers[m := t.mappers[m]], channels := t.channels)
    ensures t.mappers[m].link.cmds == []
    decreases |s.mappers[m].link.cmds|
  {
    hide OnTheWay;
    if s.mappers[m].link.cmds == [] {
      t := s;
    } else {
      var u := HandleOne(o, s, may, m);
      t := HandleMapper(o, u, may, m);
    }
  }

  /** The mappers from number `i` on handle all their commands. */
  lemma {:induction false} HandleFrom(o: System, s: System, may: set<Kind>, i: nat) returns (t: System)
    requires OnTheWay(o, s, may) && Calm(s) && i <= |s.mappers|
    requires forall m :: 0 <= m < i ==> s.mappers[m].link.cmds == []
    ensures OnTheWay(o, t, may) && Calm(t) && |t.mappers| == |s.mappers|
    ensures t == s.(mappers := t.mappers, channels := t.channels)
    ensures forall m :: 0 <= m < |t.mappers| ==> t.mappers[m].link.cmds == []
    decreases |s.mappers| - i
  {
    hide OnTheWay, Calm;
    if i == |s.mappers| {
      t := s;
    } else {
      var u := HandleMapper(o, s, may, i);
      t := HandleFrom(o, u, may, i + 1);
    }
  }

  /** A reducer handles all its commands: recoveries, of which it has the files. */
  lemma {:induction false} HandleReducer(o: System, s: System, may: set<Kind>, r: nat) returns (t: System)
    requires OnTheWay(o, s, may) && Calm(s) && r < |s.reducers|
    ensures OnTheWay(o, t, may) && Calm(t) && |t.reducers| == |s.reducers|
    ensures t == s.(reducers := s.reducers[r := t.reducers[r]]) && t.reducers[r].link.cmds == []
    decreases |s.reducers[r].link.cmds|
  {
    hide OnTheWay, Known, Live;
    var b := s.reducers[r];
    if b.link.cmds == [] {
      t := s;
    } else {
      Facts(o, s, may);
      ReducerFileIsThere(s, r);
      var u := s.(reducers := s.reducers[r :=
        Restored(b, b.link.cmds[0].rid, b.link.cmds[0].from, |s.mappers|, s.c.epoch)]);
      assert ReducerRecoverStep(s, u, r);
      Go(o, s, u, ReducerRecover(r), may);
      t := HandleReducer(o, u, may, r);
    }
  }

  lemma ReducerFileIsThere(s: System, r: nat)
    requires Known(s) && r < |s.reducers| && s.reducers[r].link.cmds != []
    ensures var cmd := s.reducers[r].link.cmds[0]; cmd.Recover? && (cmd.from < 0 || cmd.from in s.reducers[r].saved)
  {
    hide Inv, OutAlarms, LinkBase, MappersBase, ChannelsBase, Undecided, RoundComplete, Sums;
    ReducerBaseAt(s, r);
    assert ReducerCmdOk(s.reducers[r], 0, s.c);
  }

  /** All workers have handled all commands. */
  ghost predicate AllHandled(s: System) {
    && (forall m :: 0 <= m < |s.mappers| ==> s.mappers[m].link.cmds == [])
    && (forall r :: 0 <= r < |s.reducers| ==> s.reducers[r].link.cmds == [])
  }

  lemma HandleAll(o: System, s: System, may: set<Kind>) returns (t: System)
    requires OnTheWay(o, s, may) && Calm(s)
    ensures OnTheWay(o, t, may) && Calm(t) && t.c == s.c && AllHandled(t)
  {
    hide OnTheWay, Calm;
    Facts(o, s, may);
    var u := HandleReducer(o, s, may, 0);
    var v := HandleReducer(o, u, may, 1);
    t := HandleFrom(o, v, may, 0);
  }

  // ------------------------------------------------------------ packets

  function Volume(channels: seq<seq<seq<Packet>>>): nat
    requires forall m :: 0 <= m < |channels| ==> |channels[m]| == REDUCERS
  {
    if channels == [] then 0
    else
      var last := channels[|channels| - 1];
      Volume(channels[..|channels| - 1]) + |last[0]| + |last[1]|
  }

  lemma {:induction false} VolumeShrinks(c: seq<seq<seq<Packet>>>, c': seq<seq<seq<Packet>>>, m: nat, r: nat)
    requires |c'| == |c| && m < |c| && r < REDUCERS
    requires forall n :: 0 <= n < |c| ==> |c[n]| == |c'[n]| == REDUCERS
    requires forall n, q :: 0 <= n < |c| && 0 <= q < REDUCERS ==> |c'[n][q]| <= |c[n][q]|
    requires |c'[m][r]| < |c[m][r]|
    ensures Volume(c') < Volume(c)
  {
    var l := |c| - 1;
    assert |c'[l][0]| <= |c[l][0]| && |c'[l][1]| <= |c[l][1]|;
    if m < l {
      VolumeShrinks(c[..l], c'[..l], m, r);
    } else {
      VolumeAtMost(c[..l], c'[..l]);
    }
  }

  lemma {:induction false} VolumeAtMost(c: seq<seq<seq<Packet>>>, c': seq<seq<seq<Packet>>>)
    requires |c'| == |c|
    requires forall n :: 0 <= n < |c| ==> |c[n]| == |c'[n]| == REDUCERS
    requires forall n, q :: 0 <= n < |c| && 0 <= q < REDUCERS ==> |c'[n][q]| <= |c[n][q]|
    ensures Volume(c') <= Volume(c)
  {
    if c != [] {
      var l := |c| - 1;
      assert |c'[l][0]| <= |c[l][0]| && |c'[l][1]| <= |c[l][1]|;
      VolumeAtMost(c[..l], c'[..l]);
    }
  }

  ghost predicate Deliverable(s: System, m: nat, r: nat)
    requires Shape(s)
  {
    && m < |s.mappers| && r < REDUCERS && s.channels[m][r] != []
    && !CurrentMarker(s.channels[m][r][0], s.reducers[r].rid)
  }

  /** All workers take part, and the mappers have handled their commands. */
  ghost predicate Working(s: System) {
    && Known(s) && Calm(s) && LiveParts(s) && (s.c.phase == Cp || s.c.phase == LastCp)
    && forall m :: 0 <= m < |s.mappers| ==> s.mappers[m].link.cmds == []
  }

  lemma WorkingStages(s: System)
    requires Working(s)
    ensures Shape(s) && (forall m :: 0 <= m < |s.mappers| ==> s.mappers[m].stage == Joined)
    ensures forall r :: 0 <= r < |s.reducers| ==> s.reducers[r].stage == Joined && s.reducers[r].rid == s.c.epoch
  {
    hide Known;
    forall m | 0 <= m < |s.mappers| ensures s.mappers[m].stage == Joined {
      CalmMapper(s, m);
    }
    forall r | 0 <= r < |s.reducers| ensures s.reducers[r].stage == Joined && s.reducers[r].rid == s.c.epoch {
      CalmReducer(s, r);
    }
  }

  /** Which marker is on its way to reducer `r`, if one blocks channel `m`. */
  lemma BlockedBy(s: System, m: nat, r: nat)
    requires Working(s) && Shape(s) && m < |s.mappers| && r < REDUCERS && s.channels[m][r] != []
    requires CurrentMarker(s.channels[m][r][0], s.reducers[r].rid)
    ensures s.reducers[r].rid == s.c.epoch
    ensures var k := s.channels[m][r][0].cp;
      && HasM(s.mappers[m], k, s.c.epoch) && !HasR(s.reducers[r], k, s.c.epoch)
      && (k == s.c.nextCp || (k == 0 && s.c.phase == LastCp)) && (k == s.c.nextCp ==> s.c.asked)
  {
    hide Base, SoundOrUnfinished, RoundComplete, Wired, Conserved, Separates, OutAlarms, ReducerOk, MapperOk, LiveParts;
    WorkingStages(s);
    ChannelAt(s, m, r);
    MarkerFacts(s.mappers[m], s.reducers[r], s.channels[m][r], s.c.epoch, s.c.nextCp);
    CalmMapper(s, m);
    AskedFacts(s, m);
  }

  lemma MarkerFacts(a: Mapper, b: Reducer, ch: seq<Packet>, e: nat, next: nat)
    requires Tagged(a, b, ch, e, next) && MarkersOk(a, b, ch, e)
    ensures forall i :: 0 <= i < |ch| && CurrentMarker(ch[i], e) ==>
      HasM(a, ch[i].cp, e) && !HasR(b, ch[i].cp, e) && (ch[i].cp == 0 || ch[i].cp == next)
  {
    assert forall i :: 0 <= i < |ch| ==> PacketOk(ch[i], e, next);
  }

  lemma AskedFacts(s: System, m: nat)
    requires Known(s) && m < |s.mappers|
    ensures HasM(s.mappers[m], s.c.nextCp, s.c.epoch) ==> s.c.asked
  {
    hide Base, SoundOrUnfinished, RoundComplete, Channels, OutAlarms, Reducers, LinkOk, MapperCmdOk;
    MapperAt(s, m);
  }

  /** If one mapper has sent a marker that the reducer has not answered, all have. */
  lemma AllSent(s: System, m: nat, n: nat, r: nat, k: nat)
    requires Working(s) && Shape(s) && m < |s.mappers| && n < |s.mappers| && r < REDUCERS
    requires HasM(s.mappers[m], k, s.c.epoch) && !HasR(s.reducers[r], k, s.c.epoch)
    requires (k == s.c.nextCp && s.c.asked) || (k == 0 && s.c.phase == LastCp)
    ensures Marker(k, s.c.epoch) in s.channels[n][r]
  {
    hide Known, Calm;
    LiveMapperAt(s, n);
    LiveChannelAt(s, n, r);
  }

  lemma HeadOnly(s: System, m: nat, r: nat, k: nat)
    requires Working(s) && Shape(s) && m < |s.mappers| && r < REDUCERS && !Deliverable(s, m, r)
    requires Marker(k, s.c.epoch) in s.channels[m][r]
    requires k == s.c.nextCp || (k == 0 && forall n :: 0 <= n < |s.mappers| && s.channels[n][r] != [] ==>
      s.channels[n][r][0] != Marker(s.c.nextCp, s.c.epoch))
    ensures s.channels[m][r][0] == Marker(k, s.reducers[r].rid)
  {
    hide Known, Calm, LiveMapper, LiveReducer;
    WorkingStages(s);
    BlockedBy(s, m, r);
    LiveChannelAt(s, m, r);
    var i :| 0 <= i < |s.channels[m][r]| && s.channels[m][r][i] == Marker(k, s.c.epoch);
  }

  /** Whatever is under way, some reducer can take a packet or a checkpoint. */
  lemma Unstuck(s: System, m: nat, r: nat) returns (k: nat)
    requires Working(s) && Shape(s) && m < |s.mappers| && r < REDUCERS && s.channels[m][r] != []
    requires forall n :: 0 <= n < |s.mappers| ==> !Deliverable(s, n, r)
    ensures Aligned(s, r, k)
  {
    hide Known, Calm, LiveParts;
    WorkingStages(s);
    var n := m;
    if n' :| 0 <= n' < |s.mappers| && s.channels[n'][r] != []
             && s.channels[n'][r][0] == Marker(s.c.nextCp, s.c.epoch) {
      n := n';
    }
    assert !Deliverable(s, n, r);
    BlockedBy(s, n, r);
    k := s.channels[n][r][0].cp;
    forall n' | 0 <= n' < |s.mappers|
      ensures s.channels[n'][r] != [] && s.channels[n'][r][0] == Marker(k, s.reducers[r].rid)
    {
      AllSent(s, n, n', r, k);
      HeadOnly(s, n', r, k);
    }
  }

  lemma OnTheWayWorks(o: System, s: System, may: set<Kind>)
    requires OnTheWay(o, s, may) && Calm(s) && AllHandled(s) && (s.c.phase == Cp || s.c.phase == LastCp)
    ensures Working(s) && Shape(s)
  {
    hide OnTheWay, Known, Calm, LiveParts;
    Facts(o, s, may);
  }

  /** The reducers take everything that is on its way to them. */
  lemma {:induction false} Drain(o: System, s: System, may: set<Kind>) returns (t: System)
    requires OnTheWay(o, s, may) && Calm(s) && AllHandled(s) && (s.c.phase == Cp || s.c.phase == LastCp) && Shape(s)
    ensures OnTheWay(o, t, may) && Calm(t) && AllHandled(t) && Shape(t) && Drained(t)
    ensures t == s.(reducers := t.reducers, channels := t.channels)
    decreases Volume(s.channels)
  {
    hide OnTheWay, Known, LiveParts, Aligned;
    OnTheWayWorks(o, s, may);
    t := s;
    if m, r :| 0 <= m < |s.mappers| && 0 <= r < REDUCERS && s.channels[m][r] != [] {
      var u;
      if n :| 0 <= n < |s.mappers| && Deliverable(s, n, r) {
        u := TakeOne(o, s, may, n, r);
      } else {
        var k := Unstuck(s, m, r);
        u := AlignNow(o, s, may, r, k);
      }
      t := Drain(o, u, may);
    }
  }

  lemma TakeOne(o: System, s: System, may: set<Kind>, m: nat, r: nat) returns (t: System)
    requires OnTheWay(o, s, may) && Calm(s) && AllHandled(s) && Shape(s) && Deliverable(s, m, r)
    ensures OnTheWay(o, t, may) && Calm(t) && AllHandled(t) && Shape(t) && Volume(t.channels) < Volume(s.channels)
    ensures t == s.(reducers := t.reducers, channels := t.channels)
  {
    hide OnTheWay, Add;
    t := s.(reducers := s.reducers[r := Handled(s.reducers[r], m, s.channels[m][r][0])],
            channels := Dequeue(s, m, r));
    assert DeliverStep(s, t, m, r);
    Go(o, s, t, Deliver(m, r), may);
    VolumeShrinks(s.channels, t.channels, m, r);
  }

  lemma AlignNow(o: System, s: System, may: set<Kind>, r: nat, k: nat) returns (t: System)
    requires OnTheWay(o, s, may) && Calm(s) && AllHandled(s) && Shape(s) && r < REDUCERS && Aligned(s, r, k)
    ensures OnTheWay(o, t, may) && Calm(t) && AllHandled(t) && Shape(t) && Volume(t.channels) < Volume(s.channels)
    ensures t == s.(reducers := t.reducers, channels := t.channels)
  {
    hide OnTheWay;
    var b := s.reducers[r];
    t := s.(
      reducers := s.reducers[r :=
        b.(saved := b.saved[k := ReducerCp(b.wc, b.seen, b.rid)], link := Told(b.link, Ack(k)))],
      channels := seq(|s.channels|, m requires 0 <= m < |s.channels| => s.channels[m][r := s.channels[m][r][1..]]));
    assert AlignStep(s, t, r, k);
    Go(o, s, t, Align(r, k), may);
    VolumeShrinks(s.channels, t.channels, 0, r);
  }

  // ------------------------------------------------------------ reports

  function Rank(phase: Phase): nat {
    match phase
    case RecoverReducers => 0
    case RecoverMappers => 1
    case Cp => 2
    case LastCp => 3
    case Exiting => 4
  }

  /** The coordinator knows, or will read next, that the stream has ended. */
  ghost predicate EndTold(l: Link, e: nat) {
    RecoveryAck(e) !in l.reports && (Done in l.reports || l.done)
  }

  /** Reading reports moves the phase forward, and in the same phase gives no command. */
  ghost predicate Later(s: System, t: System) {
    && |t.mappers| == |s.mappers| && |t.reducers| == |s.reducers| && t.files == s.files && t.channels == s.channels
    && t.c == s.c.(phase := t.c.phase, nextCp := t.c.nextCp, asked := t.c.asked) && Rank(s.c.phase) <= Rank(t.c.phase)
    && (forall m :: 0 <= m < |s.mappers| ==> LaterMapper(s.mappers[m], t.mappers[m], s.c, t.c))
    && (forall r :: 0 <= r < |s.reducers| ==>
          t.reducers[r] == s.reducers[r].(link := t.reducers[r].link)
          && t.reducers[r].link.cmds == s.reducers[r].link.cmds)
  }

  ghost predicate LaterMapper(a: Mapper, a': Mapper, c: Coordinator, c': Coordinator) {
    && a' == a.(link := a'.link)
    && (c'.phase == c.phase ==> a'.link.cmds == a.link.cmds)
    && (EndTold(a.link, c.epoch) ==> EndTold(a'.link, c.epoch))
  }

  lemma LaterTwice(s: System, t: System, u: System)
    requires Later(s, t) && Later(t, u)
    ensures Later(s, u)
  {
    hide LaterMapper;
    forall m | 0 <= m < |s.mappers| ensures LaterMapper(s.mappers[m], u.mappers[m], s.c, u.c) {
      assert LaterMapper(s.mappers[m], t.mappers[m], s.c, t.c);
      LaterMapperTwice(s.mappers[m], t.mappers[m], u.mappers[m], s.c, t.c, u.c);
    }
  }

  lemma LaterMapperTwice(a: Mapper, a': Mapper, a'': Mapper, c: Coordinator, c': Coordinator, c'': Coordinator)
    requires LaterMapper(a, a', c, c') && LaterMapper(a', a'', c', c'') && c'.epoch == c.epoch
    requires Rank(c.phase) <= Rank(c'.phase) <= Rank(c''.phase)
    ensures LaterMapper(a, a'', c, c'')
  {
  }

  lemma HeardLater(l: Link, c: Coordinator)
    requires l.reports != []
    ensures Heard(l, c).cmds == l.cmds && Heard(l, c).reports == l.reports[1..]
    ensures EndTold(l, c.epoch) ==> EndTold(Heard(l, c), c.epoch)
  {
    assert l.reports == [l.reports[0]] + l.reports[1..];
  }

  lemma SettledLater(h: System)
    ensures Later(h, Settled(h))
    ensures forall m :: 0 <= m < |h.mappers| ==> Settled(h).mappers[m].link.reports == h.mappers[m].link.reports
    ensures Settled(h).reducers == h.reducers
  {
    hide RoundComplete, StreamsDone, ReducersRecovered, MappersRecovered, AllFinal;
    var t := Settled(h);
    forall m | 0 <= m < |h.mappers| ensures LaterMapper(h.mappers[m], t.mappers[m], h.c, t.c) {
    }
  }

  /** The coordinator reads one more report of a mapper. */
  lemma HearOneM(o: System, s: System, may: set<Kind>, m: nat) returns (t: System)
    requires OnTheWay(o, s, may) && m < |s.mappers| && s.mappers[m].link.reports != []
    ensures OnTheWay(o, t, may) && Later(s, t) && t.reducers == s.reducers
    ensures |t.mappers[m].link.reports| < |s.mappers[m].link.reports|
    ensures forall n :: 0 <= n < |s.mappers| && n != m ==> t.mappers[n].link.reports == s.mappers[n].link.reports
  {
    hide OnTheWay, Settled, Heard, Later, Known, Live;
    Facts(o, s, may);
    HeardLater(s.mappers[m].link, s.c);
    var h := HearMapper(s, m);
    OneLater(s, h, m);
    t := Settled(h);
    SettledLater(h);
    LaterTwice(s, h, t);
    LaterShape(h, t);
    Go(o, s, t, HearM(m), may);
  }

  lemma OneLater(s: System, h: System, m: nat)
    requires m < |s.mappers| == |h.mappers| && h == s.(mappers := s.mappers[m := h.mappers[m]])
    requires LaterMapper(s.mappers[m], h.mappers[m], s.c, s.c)
    ensures Later(s, h)
  {
  }

  lemma LaterShape(s: System, t: System)
    requires Later(s, t)
    ensures |t.mappers| == |s.mappers| && |t.reducers| == |s.reducers|
  {
  }

  lemma HearOneR(o: System, s: System, may: set<Kind>, r: nat) returns (t: System)
    requires OnTheWay(o, s, may) && r < |s.reducers| && s.reducers[r].link.reports != []
    ensures OnTheWay(o, t, may) && Later(s, t)
    ensures |t.reducers[r].link.reports| < |s.reducers[r].link.reports|
    ensures forall m :: 0 <= m < |s.mappers| ==> t.mappers[m].link.reports == s.mappers[m].link.reports
    ensures forall q :: 0 <= q < |s.reducers| && q != r ==> t.reducers[q].link.reports == s.reducers[q].link.reports
  {
    hide OnTheWay, Settled, Heard, Later, Known, Live;
    Facts(o, s, may);
    HeardLater(s.reducers[r].link, s.c);
    var h := HearReducer(s, r);
    OneReducerLater(s, h, r);
    t := Settled(h);
    SettledLater(h);
    LaterTwice(s, h, t);
    LaterShape(h, t);
    Go(o, s, t, HearR(r), may);
  }

  lemma OneReducerLater(s: System, h: System, r: nat)
    requires r < |s.reducers| == |h.reducers| && h == s.(reducers := s.reducers[r := h.reducers[r]])
    requires h.reducers[r] == s.reducers[r].(link := h.reducers[r].link)
    requires h.reducers[r].link.cmds == s.reducers[r].link.cmds
    ensures Later(s, h)
  {
  }

  /** How many reports of worker `i` are unread; the reducers come after the mappers. */
  function Unread(s: System, i: nat): nat {
    if i < |s.mappers| then |s.mappers[i].link.reports|
    else if i - |s.mappers| < |s.reducers| then |s.reducers[i - |s.mappers|].link.reports|
    else 0
  }

  /** The coordinator reads all reports of worker `i` and of those after it. */
  lemma {:induction false} HearFrom(o: System, s: System, may: set<Kind>, i: nat) returns (t: System)
    requires OnTheWay(o, s, may) && i <= |s.mappers| + |s.reducers| && forall j :: 0 <= j < i ==> Unread(s, j) == 0
    ensures OnTheWay(o, t, may) && Later(s, t)
    ensures forall j :: 0 <= j < |t.mappers| + |t.reducers| ==> Unread(t, j) == 0
    decreases |s.mappers| + |s.reducers| - i, Unread(s, i)
  {
    hide OnTheWay, Later;
    if i == |s.mappers| + |s.reducers| {
      t := s;
      SameLater(s);
    } else if Unread(s, i) == 0 {
      t := HearFrom(o, s, may, i + 1);
    } else {
      var u;
      if i < |s.mappers| {
        u := HearOneM(o, s, may, i);
      } else {
        u := HearOneR(o, s, may, i - |s.mappers|);
      }
      LaterShape(s, u);
      assert Unread(u, i) < Unread(s, i);
      forall j | 0 <= j < i ensures Unread(u, j) == 0 {
        assert Unread(s, j) == 0;
      }
      t := HearFrom(o, u, may, i);
      LaterTwice(s, u, t);
    }
  }

  lemma SameLater(s: System)
    ensures Later(s, s)
  {
  }

  lemma HearAll(o: System, s: System, may: set<Kind>) returns (t: System)
    requires OnTheWay(o, s, may)
    ensures OnTheWay(o, t, may) && Later(s, t) && AllHeard(t)
  {
    hide OnTheWay, Later;
    t := HearFrom(o, s, may, 0);
    forall m | 0 <= m < |t.mappers| ensures t.mappers[m].link.reports == [] {
      assert Unread(t, m) == 0;
    }
    forall r | 0 <= r < |t.reducers| ensures t.reducers[r].link.reports == [] {
      assert Unread(t, |t.mappers| + r) == 0;
    }
  }

  // ------------------------------------------------------------ one phase after the other

  lemma LaterCalm(s: System, t: System)
    requires Later(s, t) && Calm(s)
    ensures Calm(t) && Rank(s.c.phase) <= Rank(t.c.phase)
    ensures AllHandled(s) && t.c.phase == s.c.phase ==> AllHandled(t)
  {
    forall m | 0 <= m < |t.mappers| ensures t.mappers[m].up && (t.c.phase == s.c.phase ==>
      t.mappers[m].link.cmds == s.mappers[m].link.cmds)
    {
      assert LaterMapper(s.mappers[m], t.mappers[m], s.c, t.c);
    }
  }

  /** With all commands handled and all reports read, recovery is not what the coordinator waits for. */
  lemma RecoveryIsOver(s: System)
    requires Known(s) && Calm(s) && LiveParts(s) && AllHandled(s) && AllHeard(s)
    ensures s.c.phase != RecoverReducers && s.c.phase != RecoverMappers
  {
    hide Inv, OutAlarms, Raw, RoundComplete;
    assert Undecided(s);
    hide Known;
    if s.c.phase == RecoverReducers {
      forall r | 0 <= r < |s.reducers| ensures s.reducers[r].link.recovered == s.c.epoch {
        CalmReducer(s, r);
        LiveReducerAt(s, r);
      }
    }
    if s.c.phase == RecoverMappers {
      forall m | 0 <= m < |s.mappers| ensures s.mappers[m].link.recovered == s.c.epoch {
        CalmMapper(s, m);
        LiveMapperAt(s, m);
      }
    }
  }

  /** With, moreover, all packets taken, the final checkpoint is not what it waits for. */
  lemma FinalIsOver(s: System)
    requires Known(s) && Calm(s) && LiveParts(s) && AllHandled(s) && AllHeard(s) && Shape(s) && Drained(s)
    ensures s.c.phase != LastCp
  {
    hide Inv, OutAlarms, Raw, RoundComplete;
    assert Undecided(s);
    hide Known;
    if s.c.phase == LastCp {
      forall m | 0 <= m < |s.mappers| ensures HasM(s.mappers[m], 0, s.c.epoch) && s.mappers[m].link.lastDone {
        LiveMapperAt(s, m);
      }
      forall r | 0 <= r < |s.reducers| ensures s.reducers[r].link.lastDone {
        LiveReducerAt(s, r);
        LiveChannelAt(s, 0, r);
        assert s.channels[0][r] == [];
        assert HasM(s.mappers[0], 0, s.c.epoch);
      }
    }
  }

  /** With the ends of all streams told and read, the checkpoint phase is over. */
  lemma StreamsAreOver(s: System)
    requires Known(s) && AllHeard(s) && forall m :: 0 <= m < |s.mappers| ==> EndTold(s.mappers[m].link, s.c.epoch)
    ensures s.c.phase != Cp
  {
    hide Inv, OutAlarms, Raw, RoundComplete;
    assert Undecided(s);
  }

  lemma StillNow(s: System)
    requires Known(s) && Calm(s) && LiveParts(s) && AllHandled(s) && AllHeard(s) && Shape(s) && Drained(s)
    requires s.c.phase == Cp
    ensures Still(s) && forall m :: 0 <= m < |s.mappers| ==> !Early(s, m)
  {
    hide Known, LiveParts;
    NoneEarly(s);
    forall m | 0 <= m < |s.mappers|
      ensures MapperReady(s.mappers[m], s.c.epoch) && Idle(s.mappers[m].link, s.c.epoch)
    {
      CalmMapper(s, m);
      CalmIsOpen(s, m);
      RecordOf(s, m, 0);
    }
    forall r | 0 <= r < |s.reducers|
      ensures ReducerReady(s.reducers[r], s.c.epoch) && Idle(s.reducers[r].link, s.c.epoch)
    {
      CalmReducer(s, r);
      RecordOf(s, 0, r);
    }
  }

  lemma RecordOf(s: System, m: nat, r: nat)
    requires Known(s) && s.c.phase == Cp && m < |s.mappers| && r < |s.reducers|
    ensures s.mappers[m].link.recovered == s.c.epoch && !s.mappers[m].link.lastDone
    ensures s.reducers[r].link.recovered == s.c.epoch && !s.reducers[r].link.lastDone
    ensures RecoveryAck(s.c.epoch) !in s.mappers[m].link.reports
  {
    hide Inv, OutAlarms, ChannelsBase, Undecided, RoundComplete, Sums;
    MapperBaseAt(s, m);
    ReducerBaseAt(s, r);
  }

  /** One phase further. */
  lemma Advance(o: System, s: System, may: set<Kind>) returns (t: System)
    requires OnTheWay(o, s, may) && Calm(s) && s.c.phase != Exiting
    ensures OnTheWay(o, t, may) && Calm(t) && Rank(s.c.phase) < Rank(t.c.phase)
  {
    hide OnTheWay, Known, Calm, LiveParts, Later, Shape, AllHandled, AllHeard;
    var u := HandleAll(o, s, may);
    Facts(o, u, may);
    if s.c.phase == Cp || s.c.phase == LastCp {
      u := Drain(o, u, may);
    }
    t := HearAll(o, u, may);
    LaterCalm(u, t);
    Facts(o, t, may);
    if t.c.phase == s.c.phase {
      RecoveryIsOver(t);
      StillDrained(u, t);
      FinalIsOver(t);
      t := FinishStreams(o, t, may);
    }
  }

  lemma StillDrained(s: System, t: System)
    requires Later(s, t) && Shape(s) && Shape(t) && (s.c.phase == Cp || s.c.phase == LastCp) && Drained(s)
    ensures Drained(t)
  {
  }

  /** All mappers send the rest of their streams and report their ends. */
  lemma FinishStreams(o: System, s: System, may: set<Kind>) returns (t: System)
    requires OnTheWay(o, s, may) && Calm(s) && AllHandled(s) && AllHeard(s) && Shape(s) && Drained(s) && s.c.phase == Cp
    ensures OnTheWay(o, t, may) && Calm(t) && Rank(s.c.phase) < Rank(t.c.phase)
  {
    hide Reachable, Leads, Known, LiveParts, Later, AllHandled, AllHeard, Still, Grown;
    Facts(o, s, may);
    StillNow(s);
    var u := FeedAll(o, s, QUIETLY);
    StillUp(s, u);
    FreeKept(s, u, Finishing, QUIETLY);
    var v := FinishFrom(o, u, QUIETLY, 0);
    Facts(o, v, may);
    forall m | 0 <= m < |v.mappers| ensures EndTold(v.mappers[m].link, v.c.epoch) {
      RecordOf(v, m, 0);
    }
    t := HearAll(o, v, may);
    LaterCalm(v, t);
    Facts(o, t, may);
    EndsTold(v, t);
    StreamsAreOver(t);
  }

  lemma StillUp(s: System, u: System)
    requires Still(u) && !s.c.alarm && u.c == s.c
    ensures Calm(u) && Shape(u)
  {
  }

  lemma EndsTold(s: System, t: System)
    requires Later(s, t) && forall m :: 0 <= m < |s.mappers| ==> EndTold(s.mappers[m].link, s.c.epoch)
    ensures forall m :: 0 <= m < |t.mappers| ==> EndTold(t.mappers[m].link, t.c.epoch)
  {
    forall m | 0 <= m < |t.mappers| ensures EndTold(t.mappers[m].link, t.c.epoch) {
      assert LaterMapper(s.mappers[m], t.mappers[m], s.c, t.c);
    }
  }

  lemma {:induction false} AdvanceAll(o: System, s: System, may: set<Kind>) returns (t: System)
    requires OnTheWay(o, s, may) && Calm(s)
    ensures OnTheWay(o, t, may) && t.c.phase == Exiting
    decreases 4 - Rank(s.c.phase)
  {
    hide OnTheWay, Calm;
    if s.c.phase == Exiting {
      t := s;
    } else {
      var u := Advance(o, s, may);
      t := AdvanceAll(o, u, may);
    }
  }

  // ------------------------------------------------------------ back to calm

  /** The dead mappers from number `i` on are restarted. */
  lemma {:induction false} ReviveFrom(o: System, s: System, may: set<Kind>, i: nat) returns (t: System)
    requires OnTheWay(o, s, may) && s.c.phase != Exiting && i <= |s.mappers|
    requires forall m :: 0 <= m < i ==> s.mappers[m].up
    ensures OnTheWay(o, t, may) && t.reducers == s.reducers && t.c == s.c.(alarm := t.c.alarm)
    ensures forall m :: 0 <= m < |t.mappers| ==> t.mappers[m].up
    ensures t.c.alarm || (t == s && !s.c.alarm)
    decreases |s.mappers| - i
  {
    hide OnTheWay, Known, Live;
    Facts(o, s, may);
    if i == |s.mappers| {
      t := s;
    } else if s.mappers[i].up {
      t := ReviveFrom(o, s, may, i + 1);
    } else {
      var u := s.(mappers := s.mappers[i := RestartedMapper(s.mappers[i], s.reducers)], c := s.c.(alarm := true));
      assert RestartMapperStep(s, u, i);
      Go(o, s, u, RestartM(i), may);
      t := ReviveFrom(o, u, may, i + 1);
    }
  }

  lemma ReviveReducer(o: System, s: System, may: set<Kind>, r: nat) returns (t: System)
    requires OnTheWay(o, s, may) && s.c.phase != Exiting && r < |s.reducers|
    ensures OnTheWay(o, t, may) && t.mappers == s.mappers && t.c == s.c.(alarm := t.c.alarm)
    ensures |t.reducers| == |s.reducers| && t.reducers[r].up
    ensures forall q :: 0 <= q < |s.reducers| && q != r ==> t.reducers[q] == s.reducers[q]
    ensures t.c.alarm || (t == s && !s.c.alarm)
  {
    hide OnTheWay, Known, Live;
    Facts(o, s, may);
    if s.reducers[r].up {
      t := s;
    } else {
      t := s.(reducers := s.reducers[r := RestartedReducer(s.reducers[r])], channels := Reconnected(s.channels, r),
              c := s.c.(alarm := true));
      assert RestartReducerStep(s, t, r);
      Go(o, s, t, RestartR(r), may);
    }
  }

  /** All dead workers are restarted. */
  lemma ReviveAll(o: System, s: System, may: set<Kind>) returns (t: System)
    requires OnTheWay(o, s, may) && s.c.phase != Exiting
    ensures OnTheWay(o, t, may) && t.c.phase != Exiting && (t.c.alarm || t == s)
    ensures forall m :: 0 <= m < |t.mappers| ==> t.mappers[m].up
    ensures forall r :: 0 <= r < |t.reducers| ==> t.reducers[r].up
  {
    hide OnTheWay, Known, Live;
    Facts(o, s, may);
    var u := ReviveReducer(o, s, may, 0);
    var v := ReviveReducer(o, u, may, 1);
    t := ReviveFrom(o, v, may, 0);
  }

  lemma RollBackNow(o: System, s: System, may: set<Kind>) returns (t: System)
    requires OnTheWay(o, s, may) && s.c.phase != Exiting && s.c.alarm
    requires forall m :: 0 <= m < |s.mappers| ==> s.mappers[m].up
    requires forall r :: 0 <= r < |s.reducers| ==> s.reducers[r].up
    ensures OnTheWay(o, t, may) && Calm(t)
  {
    hide OnTheWay, Known, Live, RollbackId, LastCps;
    Facts(o, s, may);
    var base := RollbackId(LastCps(s));
    t := s.(
      c := s.c.(phase := RecoverReducers, epoch := s.c.epoch + 1, asked := false, base := base, alarm := false),
      mappers := Lagging(s.mappers),
      reducers := Rallied(s.reducers, Recover(s.c.epoch + 1, base)));
    assert RollbackStep(s, t);
    Go(o, s, t, Rollback, may);
  }

  /** The dead workers are restarted, and if there was anything wrong the coordinator rolls back. */
  lemma CalmDown(o: System, s: System, may: set<Kind>) returns (t: System)
    requires OnTheWay(o, s, may) && s.c.phase != Exiting
    ensures OnTheWay(o, t, may) && Calm(t)
  {
    hide OnTheWay;
    t := ReviveAll(o, s, may);
    if t.c.alarm {
      t := RollBackNow(o, t, may);
    }
  }

  /**
   * From every reachable state, whatever has crashed, is waiting or was lost: without any further crash, and without a
   * step of a mapper restarted in the first epoch, some continuation ends with the coordinator exiting and the final
   * files merging into the sequential count.
   */
  lemma CanAlwaysFinish(s: System, may: set<Kind>) returns (t: System)
    requires Reachable(s, may) && RoundCp !in may && FinalCp !in may && s.c.resets
    ensures Leads(s, t, Rules({}, false)) && t.c.phase == Exiting && t.files == s.files
    ensures Written(t, 0)
      && t.reducers[0].saved[0].wc + t.reducers[1].saved[0].wc == SequentialCount(AllWords(t.files, Ends(t)))
  {
    hide Reachable, Leads, Calm, Known, Live, Shape, SequentialCount, AllWords;
    Stay(s, QUIETLY);
    t := s;
    if s.c.phase != Exiting {
      t := CalmDown(s, s, may);
      t := AdvanceAll(s, t, may);
    }
    Facts(s, t, may);
    ExactlyOnce(t, may);
  }
}
