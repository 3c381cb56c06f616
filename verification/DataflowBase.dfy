/** What holds in every run of the checkpointed word count, whatever restarted mappers do and recoveries reset. */
module DataflowBase {
  import opened WordCount
  import opened Dataflow
  import opened DataflowInv

  // ------------------------------------------------------------ the invariant

  /** The coordinator's record of a worker that has written the checkpoints `saved`. */
  ghost predicate LinkBase(l: Link, present: bool, saved: set<nat>, c: Coordinator) {
    && l.recovered <= c.epoch && (forall x :: x in l.reports && x.RecoveryAck? ==> x.rid <= c.epoch)
    && (Recovering(l, c.epoch) ==> present)
    && (l.recovered == c.epoch ==> RecoveryAck(c.epoch) !in l.reports)
    && (forall i, j :: 0 <= i < j < |l.reports| && l.reports[i] == RecoveryAck(c.epoch) ==>
          l.reports[j] != RecoveryAck(c.epoch))
    && (forall x :: x in l.reports && x.CpAck? ==> x.cp in saved)
    && (l.lastCp == c.nextCp ==> c.nextCp in saved)
    && Min(c.nextCp - 1, FIRST_GUESS) <= l.lastCp <= c.nextCp
    && (l.recovered == c.epoch && !Ending(c.phase) ==> !l.lastDone)
  }

  ghost predicate MapperCmdBase(a: Mapper, i: nat, c: Coordinator)
    requires i < |a.link.cmds|
  {
    match a.link.cmds[i]
    case Checkpoint(k, e) => e <= c.epoch && k <= c.nextCp
    case Recover(e, from) =>
      && 1 <= e <= c.epoch && FromOk(from, c.nextCp) && a.stage == Waiting
      && (e == c.epoch ==> from == c.base && c.phase == RecoverMappers && i == |a.link.cmds| - 1)
  }

  ghost predicate MapperBase(f: seq<seq<string>>, a: Mapper, c: Coordinator) {
    && StageOk(a.stage, a.rid, c.epoch) && a.cursor <= |f|
    && (forall k :: k in a.saved ==> a.saved[k].cursor <= |f| && a.saved[k].epoch <= c.epoch)
    && (forall k :: 1 <= k < c.nextCp ==> k in a.saved)
    && (forall i :: 0 <= i < |a.link.cmds| ==> MapperCmdBase(a, i, c))
    && LinkBase(a.link, a.stage != Waiting, a.saved.Keys, c)
    && (c.phase == RecoverReducers ==> a.stage == Waiting)
    && (c.phase == Cp || Ending(c.phase) ==> a.link.recovered == c.epoch)
  }

  ghost predicate ReducerBase(b: Reducer, mappers: nat, c: Coordinator) {
    && StageOk(b.stage, b.rid, c.epoch) && |b.seen| == mappers && Sums(b.wc, b.seen)
    && (forall k :: k in b.saved ==>
          |b.saved[k].seen| == mappers && Sums(b.saved[k].wc, b.saved[k].seen) && b.saved[k].epoch <= c.epoch)
    && (forall k :: 1 <= k < c.nextCp ==> k in b.saved)
    && (forall i :: 0 <= i < |b.link.cmds| ==> ReducerCmdOk(b, i, c))
    && LinkBase(b.link, b.stage != Waiting, b.saved.Keys, c)
    && (c.phase != RecoverReducers ==> b.link.recovered == c.epoch)
  }

  ghost predicate PacketBase(p: Packet, c: Coordinator) {
    p.rid <= c.epoch && (p.Count? ==> 0 < p.item.count) && (p.Marker? ==> p.cp <= c.nextCp)
  }

  ghost predicate ChannelBase(a: Mapper, b: Reducer, ch: seq<Packet>, r: nat, c: Coordinator) {
    r < |a.conns| && (a.conns[r] ==> b.up) && forall i :: 0 <= i < |ch| ==> PacketBase(ch[i], c)
  }

  ghost predicate CoordinatorBase(c: Coordinator) {
    && 1 <= c.nextCp && FromOk(c.base, c.nextCp)
    && (c.phase == RecoverReducers || c.phase == RecoverMappers ==>
          Min(c.nextCp - 1, FIRST_GUESS) <= RestoredId(c.base))
  }

  ghost predicate MappersBase(s: System) {
    |s.mappers| == |s.files| && forall m :: 0 <= m < |s.mappers| ==> MapperBase(s.files[m], s.mappers[m], s.c)
  }

  ghost predicate ReducersBase(s: System) {
    forall r :: 0 <= r < |s.reducers| ==> ReducerBase(s.reducers[r], |s.mappers|, s.c)
  }

  ghost predicate ChannelsBase(s: System)
    requires Shape(s)
  {
    forall m, r :: 0 <= m < |s.mappers| && 0 <= r < REDUCERS ==>
      ChannelBase(s.mappers[m], s.reducers[r], s.channels[m][r], r, s.c)
  }

  /** What holds also while the coordinator has read a report and not yet drawn its conclusion. */
  ghost predicate Raw(s: System) {
    Shape(s) && CoordinatorBase(s.c) && MappersBase(s) && ReducersBase(s) && ChannelsBase(s)
  }

  /** The coordinator has drawn its conclusions: what would end the phase has not happened. */
  ghost predicate Undecided(s: System) {
    match s.c.phase
    case Cp => !StreamsDone(s)
    case RecoverReducers => !ReducersRecovered(s)
    case RecoverMappers => !MappersRecovered(s)
    case LastCp => !AllFinal(s)
    case Exiting => true
  }

  ghost predicate Base(s: System) {
    Raw(s) && !RoundComplete(s) && Undecided(s)
  }

  // ------------------------------------------------------------ one worker

  lemma LinkTold(l: Link, x: Report, present: bool, present': bool, saved: set<nat>, saved': set<nat>, c: Coordinator)
    requires LinkBase(l, present, saved, c) && saved <= saved' && (present ==> present')
    requires match x
      case CpAck(k) => k in saved'
      case RecoveryAck(e) => e <= c.epoch && !present && (e == c.epoch ==> present')
      case _ => true
    ensures LinkBase(Told(l, x), present', saved', c)
  {
    var l' := Told(l, x);
    forall y | y in l'.reports && y.CpAck? ensures y.cp in saved' {
      assert y in l.reports || y == x;
    }
    assert Recovering(l', c.epoch) ==> Recovering(l, c.epoch) || x == RecoveryAck(c.epoch);
  }

  /** Reading the acknowledgement of a recovery. */
  lemma RecoveryHeard(l: Link, present: bool, saved: set<nat>, c: Coordinator)
    requires LinkBase(l, present, saved, c) && l.reports != [] && l.reports[0] == RecoveryAck(c.epoch)
    requires CoordinatorBase(c) && (c.phase == RecoverReducers || c.phase == RecoverMappers)
    requires forall k :: 1 <= k < c.nextCp ==> k in saved
    ensures LinkBase(Heard(l, c), present, saved, c) && (c.resets ==> Heard(l, c).lastCp < c.nextCp)
  {
    var x, rest := l.reports[0], l.reports[1..];
    assert forall y :: y in rest ==> y in l.reports;
    forall j | 0 <= j < |rest| ensures rest[j] != RecoveryAck(c.epoch) {
      assert l.reports[j + 1] == rest[j];
    }
  }

  /** Reading any other report. */
  lemma OtherHeard(l: Link, present: bool, saved: set<nat>, c: Coordinator)
    requires LinkBase(l, present, saved, c) && l.reports != [] && l.reports[0] != RecoveryAck(c.epoch)
    requires CoordinatorBase(c)
    ensures LinkBase(Heard(l, c), present, saved, c) && Heard(l, c).recovered == l.recovered
    ensures Heard(l, c).lastCp == c.nextCp ==> l.lastCp == c.nextCp || (c.phase == Cp && Heard(l, c).done == l.done)
  {
    var rest := l.reports[1..];
    var l' := Heard(l, c);
    assert forall y :: y in rest ==> y in l.reports;
    assert l'.recovered == l.recovered && l'.reports == rest;
    assert Recovering(l', c.epoch) ==> Recovering(l, c.epoch);
    forall i, j | 0 <= i < j < |rest| && rest[i] == RecoveryAck(c.epoch) ensures rest[j] != RecoveryAck(c.epoch) {
      assert l.reports[i + 1] == rest[i] && l.reports[j + 1] == rest[j];
    }
  }

  lemma LinkHeard(l: Link, present: bool, saved: set<nat>, c: Coordinator)
    requires LinkBase(l, present, saved, c) && l.reports != [] && CoordinatorBase(c)
    requires l.recovered < c.epoch ==> c.phase == RecoverReducers || c.phase == RecoverMappers
    requires forall k :: 1 <= k < c.nextCp ==> k in saved
    ensures LinkBase(Heard(l, c), present, saved, c) && l.recovered <= Heard(l, c).recovered
    ensures Heard(l, c).lastCp == c.nextCp ==> l.lastCp == c.nextCp || (c.phase == Cp && Heard(l, c).done == l.done)
    ensures Heard(l, c).recovered == c.epoch ==> l.recovered == c.epoch || !Heard(l, c).done
  {
    if l.reports[0] == RecoveryAck(c.epoch) {
      assert l.recovered < c.epoch by {
        assert RecoveryAck(c.epoch) in l.reports;
      }
      RecoveryHeard(l, present, saved, c);
    } else {
      OtherHeard(l, present, saved, c);
    }
  }

  lemma LinkRolled(l: Link, l': Link, present: bool, saved: set<nat>, c: Coordinator, c': Coordinator)
    requires LinkBase(l, present, saved, c) && l' == l.(cmds := l'.cmds)
    requires c'.epoch == c.epoch + 1 && c'.nextCp == c.nextCp
    ensures LinkBase(l', false, saved, c') && l'.recovered < c'.epoch
  {
  }

  /** What the coordinator's phase and round say about a record; the epoch stays. */
  lemma LinkPhase(l: Link, present: bool, saved: set<nat>, c: Coordinator, c': Coordinator)
    requires LinkBase(l, present, saved, c) && c'.epoch == c.epoch
    requires c'.nextCp == c.nextCp || (c'.nextCp == c.nextCp + 1 && l.lastCp == c.nextCp)
    requires Ending(c.phase) ==> Ending(c'.phase)
    ensures LinkBase(l, present, saved, c')
  {
  }

  lemma MapperCmdsKept(a: Mapper, a': Mapper, c: Coordinator)
    requires forall i :: 0 <= i < |a.link.cmds| ==> MapperCmdBase(a, i, c)
    requires a'.stage == a.stage
    requires a'.link.cmds == a.link.cmds || (a.link.cmds != [] && a'.link.cmds == a.link.cmds[1..])
    ensures forall i :: 0 <= i < |a'.link.cmds| ==> MapperCmdBase(a', i, c)
  {
    forall i | 0 <= i < |a'.link.cmds| ensures MapperCmdBase(a', i, c) {
      var j := if a'.link.cmds == a.link.cmds then i else i + 1;
      assert MapperCmdBase(a, j, c) && a'.link.cmds[i] == a.link.cmds[j];
    }
  }

  /** The mapper moves, and perhaps says so. */
  lemma MapperMovesBase(f: seq<seq<string>>, a: Mapper, a': Mapper, c: Coordinator)
    requires MapperBase(f, a, c) && a'.cursor <= |f|
    requires a' == a.(cursor := a'.cursor, up := a'.up, conns := a'.conns, link := a'.link)
    requires a'.link == a.link || a'.link == Told(a.link, Done)
    ensures MapperBase(f, a', c)
  {
    hide LinkBase;
    MapperCmdsKept(a, a', c);
    LinkTold(a.link, Done, a.stage != Waiting, a.stage != Waiting, a.saved.Keys, a.saved.Keys, c);
  }

  lemma MapperSavesBase(f: seq<seq<string>>, a: Mapper, c: Coordinator, sound: bool, acked: bool)
    requires MapperBase(f, a, c) && a.link.cmds != [] && a.link.cmds[0].Checkpoint?
    ensures MapperBase(f, a.(link := Pop(a.link)), c)
    ensures MapperBase(f, Checkpointed(a, sound, acked), c)
    ensures a.link.cmds[0].cp <= c.nextCp
  {
    hide LinkBase;
    var a' := Checkpointed(a, sound, acked);
    var k := a.link.cmds[0].cp;
    assert MapperCmdBase(a, 0, c);
    assert a'.saved.Keys == a.saved.Keys + {k};
    MapperCmdsKept(a, a', c);
    MapperCmdsKept(a, a.(link := Pop(a.link)), c);
    LinkPops(a.link, a.stage != Waiting, a.saved.Keys, a.saved.Keys, c);
    LinkPops(a.link, a.stage != Waiting, a.saved.Keys, a'.saved.Keys, c);
    LinkTold(Pop(a.link), Ack(k), a.stage != Waiting, a.stage != Waiting, a'.saved.Keys, a'.saved.Keys, c);
  }

  lemma LinkPops(l: Link, present: bool, saved: set<nat>, saved': set<nat>, c: Coordinator)
    requires LinkBase(l, present, saved, c) && saved <= saved' && l.cmds != []
    ensures LinkBase(Pop(l), present, saved', c)
  {
  }

  lemma MapperRecoversBase(f: seq<seq<string>>, a: Mapper, c: Coordinator, conns: seq<bool>)
    requires MapperBase(f, a, c) && a.link.cmds != [] && a.link.cmds[0].Recover?
    requires var from := a.link.cmds[0].from; from < 0 || from in a.saved
    ensures
      var rid, from := a.link.cmds[0].rid, a.link.cmds[0].from;
      MapperBase(f,
                 a.(cursor := SavedCursor(a, from), rid := rid, conns := conns, stage := Joining(a.stage, rid, c.epoch),
                       link := Told(Pop(a.link), RecoveryAck(rid))), c)
  {
    hide LinkBase;
    var rid, from := a.link.cmds[0].rid, a.link.cmds[0].from;
    var a' := a.(cursor := SavedCursor(a, from), rid := rid, conns := conns, stage := Joining(a.stage, rid, c.epoch),
                 link := Told(Pop(a.link), RecoveryAck(rid)));
    assert MapperCmdBase(a, 0, c);
    LinkPops(a.link, false, a.saved.Keys, a.saved.Keys, c);
    LinkTold(Pop(a.link), RecoveryAck(rid), false, a'.stage != Waiting, a.saved.Keys, a.saved.Keys, c);
    forall i | 0 <= i < |a'.link.cmds| ensures MapperCmdBase(a', i, c) {
      assert MapperCmdBase(a, i + 1, c) && a'.link.cmds[i] == a.link.cmds[i + 1];
    }
  }

  lemma MapperRestartsBase(f: seq<seq<string>>, a: Mapper, c: Coordinator, reducers: seq<Reducer>)
    requires MapperBase(f, a, c)
    ensures MapperBase(f, RestartedMapper(a, reducers), c)
  {
  }

  lemma MapperHeardBase(f: seq<seq<string>>, a: Mapper, c: Coordinator)
    requires MapperBase(f, a, c) && a.link.reports != [] && CoordinatorBase(c)
    ensures MapperBase(f, a.(link := Heard(a.link, c)), c)
    ensures Heard(a.link, c).lastCp == c.nextCp ==>
      a.link.lastCp == c.nextCp || (c.phase == Cp && Heard(a.link, c).done == a.link.done)
    ensures Heard(a.link, c).recovered == c.epoch ==> a.link.recovered == c.epoch || !Heard(a.link, c).done
    ensures a.link.recovered <= Heard(a.link, c).recovered
  {
    hide LinkBase, Heard;
    assert a.link.recovered <= c.epoch by {
      LinkRolled(a.link, a.link, a.stage != Waiting, a.saved.Keys, c, c.(epoch := c.epoch + 1));
    }
    LinkHeard(a.link, a.stage != Waiting, a.saved.Keys, c);
    HeardCmds(a.link, c);
    MapperCmdsKept(a, a.(link := Heard(a.link, c)), c);
  }

  lemma HeardCmds(l: Link, c: Coordinator)
    requires l.reports != []
    ensures Heard(l, c).cmds == l.cmds
  {
  }

  /** The phase or the round changes, with or without a command. */
  lemma MapperTurns(f: seq<seq<string>>, a: Mapper, a': Mapper, c: Coordinator, c': Coordinator)
    requires MapperBase(f, a, c) && c' == c.(phase := c'.phase, nextCp := c'.nextCp, asked := c'.asked)
    requires c'.nextCp == c.nextCp || (c'.nextCp == c.nextCp + 1 && a.link.lastCp == c.nextCp)
    requires c'.phase != RecoverReducers && (Ending(c.phase) ==> Ending(c'.phase))
    requires if c'.phase == RecoverMappers then c.phase == RecoverReducers else a.link.recovered == c.epoch
    requires a' == a.(link := a.link.(cmds := a'.link.cmds))
    requires
      || a'.link.cmds == a.link.cmds
      || a'.link.cmds == a.link.cmds + [Checkpoint(0, c.epoch)]
      || (a'.link.cmds == a.link.cmds + [Recover(c.epoch, c.base)] && c.phase == RecoverReducers
          && c'.phase == RecoverMappers && FromOk(c.base, c.nextCp))
    ensures MapperBase(f, a', c')
  {
    LinkPhase(a.link, a.stage != Waiting, a.saved.Keys, c, c');
    forall k | 1 <= k < c'.nextCp ensures k in a'.saved {
    }
    forall i | 0 <= i < |a'.link.cmds| ensures MapperCmdBase(a', i, c') {
      if i < |a.link.cmds| {
        assert MapperCmdBase(a, i, c) && a'.link.cmds[i] == a.link.cmds[i];
      }
    }
  }

  lemma MapperAsked(f: seq<seq<string>>, a: Mapper, c: Coordinator)
    requires MapperBase(f, a, c) && c.phase == Cp
    ensures MapperBase(f, a.(link := a.link.(cmds := a.link.cmds + [Checkpoint(c.nextCp, c.epoch)])), c.(asked := true))
  {
    var a' := a.(link := a.link.(cmds := a.link.cmds + [Checkpoint(c.nextCp, c.epoch)]));
    forall i | 0 <= i < |a'.link.cmds| ensures MapperCmdBase(a', i, c.(asked := true)) {
      if i < |a.link.cmds| {
        assert MapperCmdBase(a, i, c) && a'.link.cmds[i] == a.link.cmds[i];
      }
    }
  }

  lemma MapperRolls(f: seq<seq<string>>, a: Mapper, c: Coordinator, c': Coordinator)
    requires MapperBase(f, a, c) && c'.phase == RecoverReducers && c'.epoch == c.epoch + 1 && c'.nextCp == c.nextCp
    ensures MapperBase(f, a.(stage := Waiting), c')
  {
    hide LinkBase;
    var a' := a.(stage := Waiting);
    LinkRolled(a.link, a.link, a.stage != Waiting, a.saved.Keys, c, c');
    forall i | 0 <= i < |a'.link.cmds| ensures MapperCmdBase(a', i, c') {
      assert MapperCmdBase(a, i, c);
    }
  }

  // ------------------------------------------------------------ one reducer

  lemma ReducerMovesBase(b: Reducer, b': Reducer, mappers: nat, c: Coordinator)
    requires ReducerBase(b, mappers, c)
    requires b' == b.(up := b'.up, wc := b'.wc, seen := b'.seen) && |b'.seen| == mappers && Sums(b'.wc, b'.seen)
    ensures ReducerBase(b', mappers, c)
  {
    hide LinkBase, Sums;
    forall i | 0 <= i < |b'.link.cmds| ensures ReducerCmdOk(b', i, c) {
      assert ReducerCmdOk(b, i, c);
    }
  }

  lemma ReducerSavesBase(b: Reducer, mappers: nat, c: Coordinator, k: nat)
    requires ReducerBase(b, mappers, c)
    ensures
      ReducerBase(b.(saved := b.saved[k := ReducerCp(b.wc, b.seen, b.rid)], link := Told(b.link, Ack(k))), mappers, c)
  {
    hide LinkBase, Sums;
    var b' := b.(saved := b.saved[k := ReducerCp(b.wc, b.seen, b.rid)], link := Told(b.link, Ack(k)));
    assert b'.saved.Keys == b.saved.Keys + {k};
    LinkTold(b.link, Ack(k), b.stage != Waiting, b.stage != Waiting, b.saved.Keys, b'.saved.Keys, c) by {
      LinkGains(b.link, b.stage != Waiting, b.saved.Keys, b'.saved.Keys, c);
    }
    forall i | 0 <= i < |b'.link.cmds| ensures ReducerCmdOk(b', i, c) {
      assert ReducerCmdOk(b, i, c);
    }
  }

  lemma LinkGains(l: Link, present: bool, saved: set<nat>, saved': set<nat>, c: Coordinator)
    requires LinkBase(l, present, saved, c) && saved <= saved'
    ensures LinkBase(l, present, saved', c)
  {
  }

  lemma ReducerRecoversBase(b: Reducer, mappers: nat, c: Coordinator)
    requires ReducerBase(b, mappers, c) && b.link.cmds != [] && b.link.cmds[0].Recover?
    requires var from := b.link.cmds[0].from; from < 0 || from in b.saved
    ensures ReducerBase(Restored(b, b.link.cmds[0].rid, b.link.cmds[0].from, mappers, c.epoch), mappers, c)
  {
    hide LinkBase, Sums;
    var rid := b.link.cmds[0].rid;
    var b' := Restored(b, rid, b.link.cmds[0].from, mappers, c.epoch);
    assert ReducerCmdOk(b, 0, c);
    EmptySums(mappers);
    LinkPops(b.link, false, b.saved.Keys, b.saved.Keys, c);
    LinkTold(Pop(b.link), RecoveryAck(rid), false, b'.stage != Waiting, b.saved.Keys, b.saved.Keys, c);
    forall i | 0 <= i < |b'.link.cmds| ensures ReducerCmdOk(b', i, c) {
      assert ReducerCmdOk(b, i + 1, c) && b'.link.cmds[i] == b.link.cmds[i + 1];
    }
  }

  lemma ReducerRestartsBase(b: Reducer, mappers: nat, c: Coordinator)
    requires ReducerBase(b, mappers, c)
    ensures ReducerBase(RestartedReducer(b), mappers, c)
  {
    hide Sums;
    EmptySums(mappers);
  }

  lemma ReducerHeardBase(b: Reducer, mappers: nat, c: Coordinator)
    requires ReducerBase(b, mappers, c) && b.link.reports != [] && CoordinatorBase(c)
    ensures ReducerBase(b.(link := Heard(b.link, c)), mappers, c)
    ensures Heard(b.link, c).lastCp == c.nextCp ==> b.link.lastCp == c.nextCp || c.phase == Cp
  {
    hide LinkBase, Heard, Sums;
    LinkHeard(b.link, b.stage != Waiting, b.saved.Keys, c);
    HeardCmds(b.link, c);
    forall i | 0 <= i < |b.link.cmds| ensures ReducerCmdOk(b.(link := Heard(b.link, c)), i, c) {
      assert ReducerCmdOk(b, i, c);
    }
  }

  lemma ReducerTurns(b: Reducer, mappers: nat, c: Coordinator, c': Coordinator)
    requires ReducerBase(b, mappers, c) && c' == c.(phase := c'.phase, nextCp := c'.nextCp, asked := c'.asked)
    requires c'.nextCp == c.nextCp || (c'.nextCp == c.nextCp + 1 && b.link.lastCp == c.nextCp)
    requires c'.phase != RecoverReducers && (Ending(c.phase) ==> Ending(c'.phase)) && b.link.recovered == c.epoch
    ensures ReducerBase(b, mappers, c')
  {
    hide Sums;
    LinkPhase(b.link, b.stage != Waiting, b.saved.Keys, c, c');
    assert b.stage != Waiting;
    assert b.link.cmds != [] ==> ReducerCmdOk(b, 0, c);
  }

  lemma ReducerRolls(b: Reducer, mappers: nat, c: Coordinator, c': Coordinator)
    requires ReducerBase(b, mappers, c) && c'.phase == RecoverReducers && c'.epoch == c.epoch + 1
    requires c'.nextCp == c.nextCp && FromOk(c'.base, c.nextCp)
    ensures ReducerBase(RalliedReducer(b, Recover(c'.epoch, c'.base)), mappers, c')
  {
    hide LinkBase, Sums;
    var b' := RalliedReducer(b, Recover(c'.epoch, c'.base));
    LinkRolled(b.link, b'.link, b.stage != Waiting, b.saved.Keys, c, c');
    forall i | 0 <= i < |b'.link.cmds| ensures ReducerCmdOk(b', i, c') {
      if i < |b.link.cmds| {
        assert b'.link.cmds[i] == b.link.cmds[i] && ReducerCmdOk(b, i, c);
      }
    }
  }

  // ------------------------------------------------------------ the whole system

  lemma MapperBaseAt(s: System, m: nat)
    requires MappersBase(s) && m < |s.mappers|
    ensures MapperBase(s.files[m], s.mappers[m], s.c)
  {
  }

  lemma ReducerBaseAt(s: System, r: nat)
    requires ReducersBase(s) && r < |s.reducers|
    ensures ReducerBase(s.reducers[r], |s.mappers|, s.c)
  {
  }

  lemma ChannelBaseAt(s: System, m: nat, r: nat)
    requires Shape(s) && ChannelsBase(s) && m < |s.mappers| && r < REDUCERS
    ensures ChannelBase(s.mappers[m], s.reducers[r], s.channels[m][r], r, s.c)
  {
  }

  /** What the coordinator has been told by the worker is the same. */
  ghost predicate SameRecord(l: Link, l': Link) {
    l'.lastCp == l.lastCp && l'.recovered == l.recovered && l'.done == l.done && l'.lastDone == l.lastDone
  }

  lemma RecordsKept(s: System, t: System)
    requires |t.mappers| == |s.mappers| && |t.reducers| == |s.reducers| && t.c == s.c.(alarm := t.c.alarm)
    requires forall m :: 0 <= m < |s.mappers| ==> SameRecord(s.mappers[m].link, t.mappers[m].link)
    requires forall r :: 0 <= r < |s.reducers| ==> SameRecord(s.reducers[r].link, t.reducers[r].link)
    ensures RoundComplete(t) == RoundComplete(s) && Undecided(t) == Undecided(s)
  {
  }

  /** A step of mapper `m`. */
  lemma MapperStepBase(s: System, t: System, m: nat)
    requires Base(s) && Shape(t) && m < |s.mappers| == |t.mappers|
    requires t == s.(mappers := s.mappers[m := t.mappers[m]], channels := s.channels[m := t.channels[m]])
    requires MapperBase(s.files[m], t.mappers[m], s.c) && SameRecord(s.mappers[m].link, t.mappers[m].link)
    requires forall r :: 0 <= r < REDUCERS ==>
      ChannelBase(t.mappers[m], s.reducers[r], t.channels[m][r], r, s.c)
    ensures Base(t)
  {
    hide MapperBase, ReducerBase, ChannelBase, RoundComplete, Undecided, CoordinatorBase;
    RecordsKept(s, t);
    forall n, r | 0 <= n < |t.mappers| && 0 <= r < REDUCERS
      ensures ChannelBase(t.mappers[n], t.reducers[r], t.channels[n][r], r, t.c)
    {
      ChannelBaseAt(s, n, r);
    }
  }

  /** A step of reducer `r`. */
  lemma ReducerStepBase(s: System, t: System, r: nat)
    requires Base(s) && Shape(t) && r < REDUCERS
    requires t == s.(mappers := t.mappers, reducers := s.reducers[r := t.reducers[r]], channels := t.channels)
    requires ReducerBase(t.reducers[r], |s.mappers|, s.c) && SameRecord(s.reducers[r].link, t.reducers[r].link)
    requires |t.mappers| == |s.mappers|
    requires forall m :: 0 <= m < |s.mappers| ==> t.mappers[m] == s.mappers[m].(conns := t.mappers[m].conns)
    requires forall m, q :: 0 <= m < |s.mappers| && 0 <= q < REDUCERS ==>
      ChannelBase(t.mappers[m], t.reducers[q], t.channels[m][q], q, s.c)
    ensures Base(t)
  {
    hide MapperBase, ReducerBase, ChannelBase, RoundComplete, Undecided, CoordinatorBase;
    RecordsKept(s, t);
    forall m | 0 <= m < |t.mappers| ensures MapperBase(t.files[m], t.mappers[m], t.c) {
      MapperBaseAt(s, m);
      ConnsKeepBase(s.files[m], s.mappers[m], t.mappers[m].conns, s.c);
    }
  }

  lemma ConnsKeepBase(f: seq<seq<string>>, a: Mapper, conns: seq<bool>, c: Coordinator)
    requires MapperBase(f, a, c)
    ensures MapperBase(f, a.(conns := conns), c)
  {
    hide LinkBase;
    MapperCmdsKept(a, a.(conns := conns), c);
  }

  lemma AlarmKeepsBase(s: System, alarm: bool)
    requires Base(s)
    ensures Base(s.(c := s.c.(alarm := alarm)))
  {
    hide MapperBase, ReducerBase, RoundComplete, Undecided;
    var t := s.(c := s.c.(alarm := alarm));
    RecordsKept(s, t);
    forall m | 0 <= m < |t.mappers| ensures MapperBase(t.files[m], t.mappers[m], t.c) {
      MapperBaseAt(s, m);
      MapperAlarmBase(s.files[m], s.mappers[m], s.c, alarm);
    }
    forall r | 0 <= r < |t.reducers| ensures ReducerBase(t.reducers[r], |t.mappers|, t.c) {
      ReducerBaseAt(s, r);
      ReducerAlarmBase(s.reducers[r], |s.mappers|, s.c, alarm);
    }
    forall m, r | 0 <= m < |t.mappers| && 0 <= r < REDUCERS
      ensures ChannelBase(t.mappers[m], t.reducers[r], t.channels[m][r], r, t.c)
    {
      ChannelBaseAt(s, m, r);
    }
  }

  lemma MapperAlarmBase(f: seq<seq<string>>, a: Mapper, c: Coordinator, alarm: bool)
    requires MapperBase(f, a, c)
    ensures MapperBase(f, a, c.(alarm := alarm))
  {
    LinkPhase(a.link, a.stage != Waiting, a.saved.Keys, c, c.(alarm := alarm));
    hide LinkBase;
    forall i | 0 <= i < |a.link.cmds| ensures MapperCmdBase(a, i, c.(alarm := alarm)) {
      assert MapperCmdBase(a, i, c);
    }
  }

  lemma ReducerAlarmBase(b: Reducer, mappers: nat, c: Coordinator, alarm: bool)
    requires ReducerBase(b, mappers, c)
    ensures ReducerBase(b, mappers, c.(alarm := alarm))
  {
    LinkPhase(b.link, b.stage != Waiting, b.saved.Keys, c, c.(alarm := alarm));
    hide LinkBase, Sums;
    forall i | 0 <= i < |b.link.cmds| ensures ReducerCmdOk(b, i, c.(alarm := alarm)) {
      assert ReducerCmdOk(b, i, c);
    }
  }

  // ------------------------------------------------------------ steps of workers

  lemma SentBase(s: System, m: nat, upto: seq<nat>, a': Mapper)
    requires Base(s) && m < |s.mappers| && Reaches(s, m, upto) && a'.conns == s.mappers[m].conns
    ensures forall r :: 0 <= r < REDUCERS ==> ChannelBase(a', s.reducers[r], Sent(s, m, upto)[r], r, s.c)
  {
    hide Counter, Share, RoundComplete, Undecided, ReducerBase, LinkBase;
    var items := Counter(s.files[m][s.mappers[m].cursor]);
    MapperBaseAt(s, m);
    CounterCounts(s.files[m][s.mappers[m].cursor], "");
    forall r | 0 <= r < REDUCERS ensures ChannelBase(a', s.reducers[r], Sent(s, m, upto)[r], r, s.c) {
      ChannelBaseAt(s, m, r);
      ShareTally(items, r, "");
      var row := Sent(s, m, upto)[r];
      forall i | 0 <= i < |row| ensures PacketBase(row[i], s.c) {
        if |s.channels[m][r]| <= i {
          assert row[i] == Packet.Count(Part(s, m, upto, r)[i - |s.channels[m][r]|], s.mappers[m].rid);
          assert Part(s, m, upto, r)[i - |s.channels[m][r]|] in Share(items, r);
        }
      }
    }
  }

  lemma SendKeepsBase(s: System, t: System, step: Step)
    requires Base(s) && NextStep(s, t, step) && (step.Send? || step.MapperCrash?)
    ensures Base(t)
  {
    hide MapperBase, ReducerBase, RoundComplete, Undecided, CoordinatorBase, Sent;
    var m := step.m;
    MapperBaseAt(s, m);
    if Reaches(s, m, step.upto) {
      SentBase(s, m, step.upto, t.mappers[m]);
    } else {
      assert t.channels == s.channels[m := s.channels[m]];
    }
    MapperMovesBase(s.files[m], s.mappers[m], t.mappers[m], s.c);
    forall r | 0 <= r < REDUCERS ensures ChannelBase(t.mappers[m], s.reducers[r], t.channels[m][r], r, s.c) {
      ChannelBaseAt(s, m, r);
    }
    MapperStepBase(s, t, m);
  }

  lemma FinishKeepsBase(s: System, t: System, m: nat)
    requires Base(s) && FinishStep(s, t, m)
    ensures Base(t)
  {
    hide MapperBase, ReducerBase, RoundComplete, Undecided, CoordinatorBase;
    MapperBaseAt(s, m);
    MapperMovesBase(s.files[m], s.mappers[m], t.mappers[m], s.c);
    SameChannels(s, t, m);
    MapperStepBase(s, t, m);
  }

  lemma SameChannels(s: System, t: System, m: nat)
    requires Base(s) && m < |s.mappers| == |t.mappers| && t.channels == s.channels
    requires t.mappers[m].conns == s.mappers[m].conns
    ensures t.channels == s.channels[m := t.channels[m]]
    ensures forall r :: 0 <= r < REDUCERS ==> ChannelBase(t.mappers[m], s.reducers[r], t.channels[m][r], r, s.c)
  {
    hide MapperBase, ReducerBase, RoundComplete, Undecided, CoordinatorBase;
    forall r | 0 <= r < REDUCERS ensures ChannelBase(t.mappers[m], s.reducers[r], t.channels[m][r], r, s.c) {
      ChannelBaseAt(s, m, r);
    }
  }

  lemma CheckpointKeepsBase(s: System, t: System, m: nat, reach: set<nat>)
    requires Base(s) && MapperCheckpointStep(s, t, m, reach)
    ensures Base(t)
  {
    hide MapperBase, ReducerBase, RoundComplete, Undecided, CoordinatorBase, Intact;
    var a := s.mappers[m];
    MapperBaseAt(s, m);
    MapperSavesBase(s.files[m], a, s.c, Intact(s.reducers), 0 in reach && 1 in reach);
    RidBase(s.files[m], a, s.c);
    if a.link.cmds[0].rid != a.rid {
      SameChannels(s, t, m);
    } else {
      forall r | 0 <= r < REDUCERS ensures ChannelBase(t.mappers[m], s.reducers[r], t.channels[m][r], r, s.c) {
        ChannelBaseAt(s, m, r);
      }
    }
    MapperStepBase(s, t, m);
  }

  lemma RidBase(f: seq<seq<string>>, a: Mapper, c: Coordinator)
    requires MapperBase(f, a, c)
    ensures a.rid <= c.epoch
  {
  }

  lemma RecoverKeepsBase(s: System, t: System, m: nat)
    requires Base(s) && MapperRecoverStep(s, t, m)
    ensures Base(t)
  {
    hide MapperBase, ReducerBase, RoundComplete, Undecided, CoordinatorBase;
    var a := s.mappers[m];
    MapperBaseAt(s, m);
    MapperRecoversBase(s.files[m], a, s.c, Connected(s.reducers));
    CursorBase(s.files[m], t.mappers[m], s.c);
    forall r | 0 <= r < REDUCERS ensures ChannelBase(t.mappers[m], s.reducers[r], t.channels[m][r], r, s.c) {
      ChannelBaseAt(s, m, r);
    }
    assert t.channels == s.channels[m := t.channels[m]];
    MapperStepBase(s, t, m);
  }

  lemma CursorBase(f: seq<seq<string>>, a: Mapper, c: Coordinator)
    requires MapperBase(f, a, c)
    ensures a.cursor <= |f|
  {
  }

  lemma RestartMKeepsBase(s: System, t: System, m: nat)
    requires Base(s) && RestartMapperStep(s, t, m)
    ensures Base(t)
  {
    hide MapperBase, ReducerBase, RoundComplete, Undecided, CoordinatorBase;
    var u := t.(c := s.c);
    MapperBaseAt(s, m);
    MapperRestartsBase(s.files[m], s.mappers[m], s.c, s.reducers);
    forall r | 0 <= r < REDUCERS ensures ChannelBase(u.mappers[m], s.reducers[r], u.channels[m][r], r, s.c) {
      ChannelBaseAt(s, m, r);
    }
    assert u.channels == s.channels[m := u.channels[m]];
    MapperStepBase(s, u, m);
    AlarmKeepsBase(u, true);
    assert t == u.(c := u.c.(alarm := true));
  }

  lemma DeliverKeepsBase(s: System, t: System, m: nat, r: nat)
    requires Base(s) && DeliverStep(s, t, m, r)
    ensures Base(t)
  {
    hide MapperBase, ReducerBase, RoundComplete, Undecided, CoordinatorBase, Sums, Add;
    var b, p := s.reducers[r], s.channels[m][r][0];
    ReducerBaseAt(s, r);
    ChannelBaseAt(s, m, r);
    SeenBase(b, |s.mappers|, s.c);
    assert PacketBase(p, s.c);
    if p.Count? {
      SumsAdd(b.wc, b.seen, m, p.item);
    }
    ReducerMovesBase(b, t.reducers[r], |s.mappers|, s.c);
    forall n, q | 0 <= n < |s.mappers| && 0 <= q < REDUCERS
      ensures ChannelBase(t.mappers[n], t.reducers[q], t.channels[n][q], q, s.c)
    {
      ChannelBaseAt(s, n, q);
    }
    ReducerStepBase(s, t, r);
  }

  lemma SeenBase(b: Reducer, mappers: nat, c: Coordinator)
    requires ReducerBase(b, mappers, c)
    ensures |b.seen| == mappers && Sums(b.wc, b.seen)
  {
  }

  lemma AlignKeepsBase(s: System, t: System, r: nat, cp: nat)
    requires Base(s) && AlignStep(s, t, r, cp)
    ensures Base(t)
  {
    hide MapperBase, ReducerBase, RoundComplete, Undecided, CoordinatorBase, Sums;
    ReducerBaseAt(s, r);
    ReducerSavesBase(s.reducers[r], |s.mappers|, s.c, cp);
    forall n, q | 0 <= n < |s.mappers| && 0 <= q < REDUCERS
      ensures ChannelBase(t.mappers[n], t.reducers[q], t.channels[n][q], q, s.c)
    {
      ChannelBaseAt(s, n, q);
    }
    ReducerStepBase(s, t, r);
  }

  lemma ReducerRecoverKeepsBase(s: System, t: System, r: nat)
    requires Base(s) && ReducerRecoverStep(s, t, r)
    ensures Base(t)
  {
    hide MapperBase, ReducerBase, RoundComplete, Undecided, CoordinatorBase, Sums;
    ReducerBaseAt(s, r);
    ReducerRecoversBase(s.reducers[r], |s.mappers|, s.c);
    SeenBase(t.reducers[r], |s.mappers|, s.c);
    forall n, q | 0 <= n < |s.mappers| && 0 <= q < REDUCERS
      ensures ChannelBase(t.mappers[n], t.reducers[q], t.channels[n][q], q, s.c)
    {
      ChannelBaseAt(s, n, q);
    }
    ReducerStepBase(s, t, r);
  }

  lemma ReducerCrashKeepsBase(s: System, t: System, r: nat)
    requires Base(s) && ReducerCrashStep(s, t, r)
    ensures Base(t)
  {
    hide MapperBase, ReducerBase, RoundComplete, Undecided, CoordinatorBase, Sums;
    ReducerBaseAt(s, r);
    SeenBase(s.reducers[r], |s.mappers|, s.c);
    ReducerMovesBase(s.reducers[r], t.reducers[r], |s.mappers|, s.c);
    forall n, q | 0 <= n < |s.mappers| && 0 <= q < REDUCERS
      ensures ChannelBase(t.mappers[n], t.reducers[q], t.channels[n][q], q, s.c)
    {
      ChannelBaseAt(s, n, q);
    }
    ReducerStepBase(s, t, r);
  }

  lemma RestartRKeepsBase(s: System, t: System, r: nat)
    requires Base(s) && RestartReducerStep(s, t, r)
    ensures Base(t)
  {
    hide MapperBase, ReducerBase, RoundComplete, Undecided, CoordinatorBase, Sums;
    var u := t.(c := s.c);
    ReducerBaseAt(s, r);
    ReducerRestartsBase(s.reducers[r], |s.mappers|, s.c);
    SeenBase(s.reducers[r], |s.mappers|, s.c);
    forall n, q | 0 <= n < |s.mappers| && 0 <= q < REDUCERS
      ensures ChannelBase(u.mappers[n], u.reducers[q], u.channels[n][q], q, s.c)
    {
      ChannelBaseAt(s, n, q);
    }
    ReducerStepBase(s, u, r);
    AlarmKeepsBase(u, true);
    assert t == u.(c := u.c.(alarm := true));
  }

  // ------------------------------------------------------------ steps of the coordinator

  /** What a report that has just been read can conclude. */
  ghost predicate OneConclusion(h: System) {
    && (RoundComplete(h) ==> h.c.phase == Cp && !StreamsDone(h))
    && (h.c.phase == RecoverMappers && MappersRecovered(h) ==> !StreamsDone(h))
  }

  lemma HearMapperRaw(s: System, m: nat)
    requires Base(s) && m < |s.mappers| && s.mappers[m].link.reports != []
    ensures Raw(HearMapper(s, m)) && OneConclusion(HearMapper(s, m))
  {
    hide MapperBase, ReducerBase, CoordinatorBase, Heard;
    var h := HearMapper(s, m);
    MapperBaseAt(s, m);
    MapperHeardBase(s.files[m], s.mappers[m], s.c);
    forall n, r | 0 <= n < |h.mappers| && 0 <= r < REDUCERS
      ensures ChannelBase(h.mappers[n], h.reducers[r], h.channels[n][r], r, h.c)
    {
      ChannelBaseAt(s, n, r);
    }
    assert h.mappers[m].link == Heard(s.mappers[m].link, s.c);
    OthersSame(s, h, m);
    assert RoundComplete(h) ==> s.mappers[m].link.lastCp != s.c.nextCp;
    assert !(RoundComplete(h) && StreamsDone(h));
    assert h.c.phase == RecoverMappers && MappersRecovered(h) ==> !h.mappers[m].link.done;
  }

  /** A conclusion that could already be drawn from the other records depends on the one that is heard. */
  lemma OthersSame(s: System, h: System, m: nat)
    requires m < |s.mappers| == |h.mappers| && h == s.(mappers := s.mappers[m := h.mappers[m]])
    ensures RoundComplete(h) && s.mappers[m].link.lastCp == s.c.nextCp ==> RoundComplete(s)
    ensures StreamsDone(h) && s.mappers[m].link.done ==> StreamsDone(s)
    ensures MappersRecovered(h) && s.mappers[m].link.recovered == s.c.epoch ==> MappersRecovered(s)
  {
    assert forall n :: 0 <= n < |s.mappers| && n != m ==> h.mappers[n] == s.mappers[n];
  }

  lemma HearReducerRaw(s: System, r: nat)
    requires Base(s) && r < |s.reducers| && s.reducers[r].link.reports != []
    ensures Raw(HearReducer(s, r)) && OneConclusion(HearReducer(s, r))
  {
    hide MapperBase, ReducerBase, CoordinatorBase, Heard;
    var h := HearReducer(s, r);
    ReducerBaseAt(s, r);
    ReducerHeardBase(s.reducers[r], |s.mappers|, s.c);
    SeenBase(s.reducers[r], |s.mappers|, s.c);
    forall n, q | 0 <= n < |h.mappers| && 0 <= q < REDUCERS
      ensures ChannelBase(h.mappers[n], h.reducers[q], h.channels[n][q], q, h.c)
    {
      ChannelBaseAt(s, n, q);
    }
    assert h.reducers[r].link == Heard(s.reducers[r].link, s.c);
    assert forall q :: 0 <= q < |s.reducers| && q != r ==> h.reducers[q] == s.reducers[q];
    assert RoundComplete(h) && s.reducers[r].link.lastCp == s.c.nextCp ==> RoundComplete(s);
  }

  /** All records are brought to the coordinator's new phase or round. */
  lemma TurnsRaw(h: System, t: System)
    requires Raw(h) && t == h.(c := t.c, mappers := t.mappers) && |t.mappers| == |h.mappers|
    requires t.c == h.c.(phase := t.c.phase, nextCp := t.c.nextCp, asked := t.c.asked) && CoordinatorBase(t.c)
    requires t.c.nextCp == h.c.nextCp || (t.c.nextCp == h.c.nextCp + 1 && RoundComplete(h))
    requires t.c.phase != RecoverReducers && (Ending(h.c.phase) ==> Ending(t.c.phase)) && ReducersRecovered(h)
    requires if t.c.phase == RecoverMappers then h.c.phase == RecoverReducers else MappersRecovered(h)
    requires forall m :: 0 <= m < |h.mappers| ==>
      && t.mappers[m] == h.mappers[m].(link := h.mappers[m].link.(cmds := t.mappers[m].link.cmds))
      && var before, after := h.mappers[m].link.cmds, t.mappers[m].link.cmds;
         || after == before || after == before + [Checkpoint(0, h.c.epoch)]
         || (after == before + [Recover(h.c.epoch, h.c.base)] && h.c.phase == RecoverReducers
             && t.c.phase == RecoverMappers)
    ensures Raw(t)
  {
    hide MapperBase, ReducerBase;
    forall m | 0 <= m < |t.mappers| ensures MapperBase(t.files[m], t.mappers[m], t.c) {
      MapperBaseAt(h, m);
      MapperTurns(h.files[m], h.mappers[m], t.mappers[m], h.c, t.c);
    }
    forall r | 0 <= r < |t.reducers| ensures ReducerBase(t.reducers[r], |t.mappers|, t.c) {
      ReducerBaseAt(h, r);
      ReducerTurns(h.reducers[r], |h.mappers|, h.c, t.c);
    }
    forall m, r | 0 <= m < |t.mappers| && 0 <= r < REDUCERS
      ensures ChannelBase(t.mappers[m], t.reducers[r], t.channels[m][r], r, t.c)
    {
      ChannelBaseAt(h, m, r);
      forall i | 0 <= i < |t.channels[m][r]| ensures PacketBase(t.channels[m][r][i], t.c) {
        assert PacketBase(h.channels[m][r][i], h.c);
      }
    }
  }

  /** Outside of recovery all workers are known to have recovered. */
  lemma KnownRecovered(h: System)
    requires Raw(h)
    ensures h.c.phase != RecoverReducers ==> ReducersRecovered(h)
    ensures h.c.phase == Cp || Ending(h.c.phase) ==> MappersRecovered(h)
    ensures h.c.phase == RecoverReducers ==>
      forall m :: 0 <= m < |h.mappers| ==> h.mappers[m].link.recovered != h.c.epoch
    ensures h.c.phase == Cp ==> forall m :: 0 <= m < |h.mappers| ==> !h.mappers[m].link.lastDone
    ensures forall m :: 0 <= m < |h.mappers| ==> h.mappers[m].link.lastCp <= h.c.nextCp
  {
    hide Sums;
    forall m | 0 <= m < |h.mappers|
      ensures h.c.phase == Cp || Ending(h.c.phase) ==> h.mappers[m].link.recovered == h.c.epoch
      ensures h.c.phase == RecoverReducers ==> h.mappers[m].link.recovered != h.c.epoch
      ensures h.c.phase == Cp ==> !h.mappers[m].link.lastDone
      ensures h.mappers[m].link.lastCp <= h.c.nextCp
    {
      MapperBaseAt(h, m);
    }
    forall r | 0 <= r < |h.reducers|
      ensures h.c.phase != RecoverReducers ==> h.reducers[r].link.recovered == h.c.epoch
    {
      ReducerBaseAt(h, r);
    }
  }

  lemma SettleKeepsBase(h: System)
    requires Raw(h) && OneConclusion(h)
    ensures Base(Settled(h))
  {
    hide MapperBase, ReducerBase, ChannelBase, MappersBase, ReducersBase, ChannelsBase;
    var t := Settled(h);
    KnownRecovered(h);
    if t != h {
      TurnsRaw(h, t);
    }
    match h.c.phase
    case Cp =>
      if RoundComplete(h) {
        assert t.mappers[0].link.lastCp != t.c.nextCp;
        assert exists m :: 0 <= m < |t.mappers| && !t.mappers[m].link.done;
      } else if StreamsDone(h) {
        assert !t.mappers[0].link.lastDone;
        SameRound(h, t);
      }
    case RecoverReducers =>
      if ReducersRecovered(h) {
        assert t.mappers[0].link.recovered != t.c.epoch;
        SameRound(h, t);
      }
    case RecoverMappers =>
      if MappersRecovered(h) {
        assert exists m :: 0 <= m < |t.mappers| && !t.mappers[m].link.done;
      }
    case LastCp =>
    case Exiting =>
  }

  lemma SameRound(h: System, t: System)
    requires |t.mappers| == |h.mappers| && t.reducers == h.reducers && t.c.nextCp == h.c.nextCp
    requires forall m :: 0 <= m < |h.mappers| ==> t.mappers[m].link.lastCp == h.mappers[m].link.lastCp
    ensures RoundComplete(t) == RoundComplete(h)
  {
  }

  lemma AskKeepsBase(s: System, t: System)
    requires Base(s) && AskStep(s, t)
    ensures Base(t)
  {
    hide MapperBase, ReducerBase;
    forall m | 0 <= m < |t.mappers| ensures MapperBase(t.files[m], t.mappers[m], t.c) {
      MapperBaseAt(s, m);
      MapperAsked(s.files[m], s.mappers[m], s.c);
    }
    forall r | 0 <= r < |t.reducers| ensures ReducerBase(t.reducers[r], |t.mappers|, t.c) {
      ReducerBaseAt(s, r);
      KnownRecovered(s);
      ReducerTurns(s.reducers[r], |s.mappers|, s.c, t.c);
    }
    forall m, r | 0 <= m < |t.mappers| && 0 <= r < REDUCERS
      ensures ChannelBase(t.mappers[m], t.reducers[r], t.channels[m][r], r, t.c)
    {
      ChannelBaseAt(s, m, r);
    }
    SameRound(s, t);
    assert StreamsDone(t) ==> StreamsDone(s);
  }

  // ------------------------------------------------------------ rollback

  lemma {:induction false} LeastIsLeast(ids: seq<nat>)
    ensures 0 <= Least(ids) <= FIRST_GUESS
    ensures forall i :: 0 <= i < |ids| ==> Least(ids) <= ids[i]
    ensures Least(ids) == FIRST_GUESS || Least(ids) in ids
  {
    if ids != [] {
      LeastIsLeast(ids[..|ids| - 1]);
    }
  }

  /** The rollback id names a completed checkpoint: the last one, as long as ids stay below the code's first guess. */
  lemma RollbackIsCompleted(s: System)
    requires Base(s)
    ensures FromOk(RollbackId(LastCps(s)), s.c.nextCp)
    ensures Min(s.c.nextCp - 1, FIRST_GUESS) <= RestoredId(RollbackId(LastCps(s))) < s.c.nextCp
  {
    hide MappersBase, ReducersBase, ChannelsBase, Least, RoundComplete, LastCps, Undecided;
    var ids := LastCps(s);
    LeastIsLeast(ids);
    forall i | 0 <= i < |ids| ensures Min(s.c.nextCp - 1, FIRST_GUESS) <= ids[i] <= s.c.nextCp {
      LastCpBounds(s, i);
    }
    SomeoneLags(s);
  }

  lemma LastCpBounds(s: System, i: nat)
    requires Raw(s) && i < |LastCps(s)|
    ensures Min(s.c.nextCp - 1, FIRST_GUESS) <= LastCps(s)[i] <= s.c.nextCp
  {
    hide ChannelsBase, Sums;
    var ids := LastCps(s);
    if i < |s.mappers| {
      MapperBaseAt(s, i);
    } else {
      var r := i - |s.mappers|;
      ReducerBaseAt(s, r);
      assert ids[|s.mappers| + r] == s.reducers[r].link.lastCp;
    }
  }

  lemma SomeoneLags(s: System)
    requires !RoundComplete(s)
    ensures exists i :: 0 <= i < |LastCps(s)| && LastCps(s)[i] != s.c.nextCp
  {
    var ids := LastCps(s);
    if r :| 0 <= r < |s.reducers| && s.reducers[r].link.lastCp != s.c.nextCp {
      assert ids[|s.mappers| + r] != s.c.nextCp;
    } else {
      var m :| 0 <= m < |s.mappers| && s.mappers[m].link.lastCp != s.c.nextCp;
      assert ids[m] != s.c.nextCp;
    }
  }

  lemma RollbackKeepsBase(s: System, t: System)
    requires Base(s) && RollbackStep(s, t)
    ensures Base(t)
  {
    hide RollsBack, Base, RollbackId, LastCps;
    RollbackIsCompleted(s);
    RollsBackKeepsBase(s, t, RollbackId(LastCps(s)));
  }

  lemma RollsBackKeepsBase(s: System, t: System, base: int)
    requires Base(s) && RollsBack(s, t, base) && FromOk(base, s.c.nextCp)
    requires Min(s.c.nextCp - 1, FIRST_GUESS) <= RestoredId(base)
    ensures Base(t)
  {
    hide MapperBase, ReducerBase;
    forall m | 0 <= m < |t.mappers| ensures MapperBase(t.files[m], t.mappers[m], t.c) {
      MapperBaseAt(s, m);
      MapperRolls(s.files[m], s.mappers[m], s.c, t.c);
    }
    forall r | 0 <= r < |t.reducers| ensures ReducerBase(t.reducers[r], |t.mappers|, t.c) {
      ReducerBaseAt(s, r);
      ReducerRolls(s.reducers[r], |s.mappers|, s.c, t.c);
    }
    forall m, r | 0 <= m < |t.mappers| && 0 <= r < REDUCERS
      ensures ChannelBase(t.mappers[m], t.reducers[r], t.channels[m][r], r, t.c)
    {
      ChannelBaseAt(s, m, r);
      forall i | 0 <= i < |t.channels[m][r]| ensures PacketBase(t.channels[m][r][i], t.c) {
        assert PacketBase(s.channels[m][r][i], s.c);
      }
    }
    RoundRolled(s, t);
    NoneRejoined(t.reducers[0], |t.mappers|, t.c);
  }

  lemma NoneRejoined(b: Reducer, mappers: nat, c: Coordinator)
    requires ReducerBase(b, mappers, c) && b.stage == Waiting
    ensures b.link.recovered != c.epoch
  {
  }

  lemma RoundRolled(s: System, t: System)
    requires |t.mappers| == |s.mappers| && |t.reducers| == |s.reducers| && t.c.nextCp == s.c.nextCp
    requires forall m :: 0 <= m < |s.mappers| ==> t.mappers[m].link.lastCp == s.mappers[m].link.lastCp
    requires forall r :: 0 <= r < |s.reducers| ==> t.reducers[r].link.lastCp == s.reducers[r].link.lastCp
    ensures RoundComplete(t) == RoundComplete(s)
  {
  }

  // ------------------------------------------------------------ runs

  lemma InitBase(s: System)
    requires Init(s)
    ensures Base(s)
  {
    hide NoEmptyWords;
    assert !s.mappers[0].link.done && s.mappers[0].link.lastCp != 1;
    EmptySums(|s.mappers|);
  }

  lemma NextKeepsBase(s: System, t: System, step: Step)
    requires Base(s) && Next(s, t, step)
    ensures Base(t)
  {
    hide Base, NextStep;
    StepKeepsBase(s, t, step);
  }

  lemma StepKeepsBase(s: System, t: System, step: Step)
    requires Shape(s) && Base(s) && NextStep(s, t, step)
    ensures Base(t)
  {
    hide Raw, RoundComplete, Undecided, OneConclusion;
    match step
    case Send(m, upto, moved) => SendKeepsBase(s, t, step);
    case Finish(m) => FinishKeepsBase(s, t, m);
    case MapperCheckpoint(m, reach) => CheckpointKeepsBase(s, t, m, reach);
    case MapperRecover(m) => RecoverKeepsBase(s, t, m);
    case Deliver(m, r) => DeliverKeepsBase(s, t, m, r);
    case Align(r, cp) => AlignKeepsBase(s, t, r, cp);
    case ReducerRecover(r) => ReducerRecoverKeepsBase(s, t, r);
    case MapperCrash(m, upto) => SendKeepsBase(s, t, step);
    case ReducerCrash(r) => ReducerCrashKeepsBase(s, t, r);
    case HearM(m) =>
      HearMapperRaw(s, m);
      SettleKeepsBase(HearMapper(s, m));
    case HearR(r) =>
      HearReducerRaw(s, r);
      SettleKeepsBase(HearReducer(s, r));
    case Ask => AskKeepsBase(s, t);
    case RestartM(m) => RestartMKeepsBase(s, t, m);
    case RestartR(r) => RestartRKeepsBase(s, t, r);
    case Rollback => RollbackKeepsBase(s, t);
  }

  lemma {:induction false} RunKeepsBase(run: seq<System>, steps: seq<Step>, i: nat)
    requires Run(run, steps) && i <= |steps|
    ensures Base(run[i])
  {
    hide Base, Init, Next;
    if i == 0 {
      InitBase(run[0]);
    } else {
      RunKeepsBase(run, steps, i - 1);
      assert Next(run[i - 1], run[i - 1 + 1], steps[i - 1]);
      NextKeepsBase(run[i - 1], run[i], steps[i - 1]);
    }
  }

  lemma ReachableBase(s: System, may: set<Kind>)
    requires Reachable(s, may)
    ensures Base(s)
  {
    hide Init, Next, Base, Follows;
    var run, steps :| Run(run, steps) && run[|steps|] == s && Follows(run, steps, Rules(may, true));
    RunKeepsBase(run, steps, |steps|);
  }
}
