/** Nothing gets lost while nothing crashes: what every worker still has to do is under way. */
module DataflowLive {
  import opened WordCount
  import opened Dataflow
  import opened DataflowInv
  import opened DataflowBase
  import opened DataflowWorkers
  import opened DataflowSteps
  import opened DataflowTheorems

  /** No worker is dead, and none was restarted since the last rollback. */
  ghost predicate Calm(s: System) {
    && !s.c.alarm && (forall m :: 0 <= m < |s.mappers| ==> s.mappers[m].up)
    && (forall r :: 0 <= r < |s.reducers| ==> s.reducers[r].up)
  }

  /** What the mapper has been asked for it has done or has in its queue; what it has done the coordinator will hear. */
  ghost predicate LiveMapper(a: Mapper, c: Coordinator) {
    var l := a.link;
    && (c.phase == RecoverMappers && a.stage == Waiting ==> Recover(c.epoch, c.base) in l.cmds)
    && (a.stage == Joined ==> Recovering(l, c.epoch))
    && ((c.phase == Cp || c.phase == LastCp) && c.asked ==>
          Checkpoint(c.nextCp, c.epoch) in l.cmds || HasM(a, c.nextCp, c.epoch))
    && (c.phase == LastCp ==> Checkpoint(0, c.epoch) in l.cmds || HasM(a, 0, c.epoch))
    && (c.phase == LastCp && HasM(a, 0, c.epoch) ==> LastAck in l.reports || l.lastDone)
    && (HasM(a, 0, c.epoch) ==> Checkpoint(c.nextCp, c.epoch) !in l.cmds)
    && FinalLast(l.cmds, c)
  }

  /** The final checkpoint is asked for after that of the round. */
  ghost predicate FinalLast(cmds: seq<Cmd>, c: Coordinator) {
    forall i, j :: 0 <= i < j < |cmds| && cmds[i] == Checkpoint(0, c.epoch) ==> cmds[j] != Checkpoint(c.nextCp, c.epoch)
  }

  ghost predicate LiveReducer(b: Reducer, c: Coordinator) {
    && (c.phase == RecoverReducers && b.stage == Waiting ==> Recover(c.epoch, c.base) in b.link.cmds)
    && (b.stage == Joined ==> Recovering(b.link, c.epoch))
    && (c.phase == LastCp && HasR(b, 0, c.epoch) ==> LastAck in b.link.reports || b.link.lastDone)
  }

  /** Every marker of the epoch is on its way until its reducer has saved, and the final one comes last. */
  ghost predicate LiveChannel(a: Mapper, b: Reducer, ch: seq<Packet>, e: nat) {
    && (forall k: nat :: HasM(a, k, e) ==> HasR(b, k, e) || Marker(k, e) in ch)
    && (forall i, j :: 0 <= i < j < |ch| && ch[i] == Marker(0, e) ==> !CurrentMarker(ch[j], e))
  }

  ghost predicate LiveParts(s: System) {
    && Shape(s)
    && (s.c.phase == RecoverReducers || s.c.phase == RecoverMappers ==> !s.c.asked)
    && (forall m :: 0 <= m < |s.mappers| ==> LiveMapper(s.mappers[m], s.c))
    && (forall r :: 0 <= r < |s.reducers| ==> LiveReducer(s.reducers[r], s.c))
    && (forall m, r :: 0 <= m < |s.mappers| && 0 <= r < REDUCERS ==>
          LiveChannel(s.mappers[m], s.reducers[r], s.channels[m][r], s.c.epoch))
  }

  ghost predicate Live(s: System) {
    Calm(s) ==> LiveParts(s)
  }

  // ------------------------------------------------------------ calm states

  /** What the invariant says about calm states: every worker waits for its recovery or takes part. */
  ghost predicate Known(s: System) {
    Inv(s) && Base(s) && OutAlarms(s)
  }

  lemma CalmMapper(s: System, m: nat)
    requires Known(s) && !s.c.alarm && m < |s.mappers|
    ensures var a := s.mappers[m];
      && a.stage != Out && (a.stage == Joined ==> a.rid == s.c.epoch) && (a.stage == Waiting ==> a.rid < s.c.epoch)
      && (a.stage == Waiting ==> s.c.phase == RecoverReducers || s.c.phase == RecoverMappers)
      && (forall k :: HasM(a, k, s.c.epoch) ==> a.stage == Joined)
      && (HasM(a, 0, s.c.epoch) ==> Ending(s.c.phase)) && 1 <= s.c.nextCp
  {
    hide Channels, Reducers, SoundOrUnfinished, RoundComplete, Base, MapperCmdOk;
    MapperAt(s, m);
  }

  lemma CalmReducer(s: System, r: nat)
    requires Known(s) && !s.c.alarm && r < |s.reducers|
    ensures var b := s.reducers[r];
      && b.stage != Out && (b.stage == Joined ==> b.rid == s.c.epoch) && (b.stage == Waiting ==> b.rid < s.c.epoch)
      && (b.stage == Waiting ==> s.c.phase == RecoverReducers)
      && (forall k :: HasR(b, k, s.c.epoch) ==> b.stage == Joined)
  {
    hide Channels, Mappers, SoundOrUnfinished, RoundComplete, Base, Sums, ReducerCmdOk;
    ReducerAt(s, r);
  }

  /** A current checkpoint command is new and waits for a mapper that takes part. */
  lemma CalmCommand(s: System, m: nat, i: nat)
    requires Known(s) && !s.c.alarm && m < |s.mappers| && i < |s.mappers[m].link.cmds|
    ensures
      var a, cmd := s.mappers[m], s.mappers[m].link.cmds[i];
      && (cmd.Checkpoint? && cmd.rid == s.c.epoch ==>
            && a.stage == Joined && !HasM(a, cmd.cp, s.c.epoch) && (cmd.cp == 0 ==> Ending(s.c.phase))
            && (cmd.cp == 0 || cmd.cp == s.c.nextCp))
      && (cmd.Checkpoint? && cmd.rid != s.c.epoch ==> a.stage == Waiting && cmd.rid < s.c.epoch)
      && (cmd.Recover? ==> a.stage == Waiting)
      && (cmd.Recover? && cmd.rid == s.c.epoch ==> s.c.phase == RecoverMappers)
  {
    hide Channels, Reducers, SoundOrUnfinished, RoundComplete, Base, LinkOk;
    MapperAt(s, m);
    CalmMapper(s, m);
    assert MapperCmdOk(s.mappers[m], i, s.c);
  }

  lemma LiveMapperAt(s: System, m: nat)
    requires LiveParts(s) && m < |s.mappers|
    ensures LiveMapper(s.mappers[m], s.c)
  {
  }

  lemma LiveReducerAt(s: System, r: nat)
    requires LiveParts(s) && r < |s.reducers|
    ensures LiveReducer(s.reducers[r], s.c)
  {
  }

  lemma LiveChannelAt(s: System, m: nat, r: nat)
    requires LiveParts(s) && m < |s.mappers| && r < REDUCERS
    ensures LiveChannel(s.mappers[m], s.reducers[r], s.channels[m][r], s.c.epoch)
  {
  }

  // ------------------------------------------------------------ steps of workers

  /** Only mapper `m` has moved. */
  lemma MapperStepLive(s: System, t: System, m: nat)
    requires LiveParts(s) && Shape(t) && m < |s.mappers| == |t.mappers|
    requires t == s.(mappers := s.mappers[m := t.mappers[m]], channels := s.channels[m := t.channels[m]])
    requires LiveMapper(t.mappers[m], t.c)
    requires forall r :: 0 <= r < REDUCERS ==> LiveChannel(t.mappers[m], t.reducers[r], t.channels[m][r], t.c.epoch)
    ensures LiveParts(t)
  {
    hide LiveMapper, LiveReducer, LiveChannel;
    forall n, r | 0 <= n < |t.mappers| && 0 <= r < REDUCERS
      ensures LiveChannel(t.mappers[n], t.reducers[r], t.channels[n][r], t.c.epoch)
    {
      LiveChannelAt(s, n, r);
    }
  }

  /** Only reducer `r` has moved. */
  lemma ReducerStepLive(s: System, t: System, r: nat)
    requires LiveParts(s) && Shape(t) && r < REDUCERS
    requires t == s.(reducers := s.reducers[r := t.reducers[r]], channels := t.channels)
    requires LiveReducer(t.reducers[r], t.c)
    requires forall m, q :: 0 <= m < |t.mappers| && 0 <= q < REDUCERS ==>
      LiveChannel(t.mappers[m], t.reducers[q], t.channels[m][q], t.c.epoch)
    ensures LiveParts(t)
  {
    hide LiveMapper, LiveReducer, LiveChannel;
  }

  lemma CountsLive(a: Mapper, a': Mapper, b: Reducer, ch: seq<Packet>, items: seq<Item>, rid: nat, e: nat)
    requires LiveChannel(a, b, ch, e) && a'.saved == a.saved
    ensures LiveChannel(a', b, ch + Packets(items, rid), e)
  {
    var ch' := ch + Packets(items, rid);
    forall k: nat | HasM(a', k, e) ensures HasR(b, k, e) || Marker(k, e) in ch' {
      assert HasM(a, k, e);
    }
  }

  lemma SendLive(s: System, t: System, m: nat, upto: seq<nat>, moved: bool)
    requires LiveParts(s) && Shape(t) && SendStep(s, t, m, upto, moved)
    ensures LiveParts(t)
  {
    hide LiveChannel, Counter, Share, Packets;
    LiveMapperAt(s, m);
    forall r | 0 <= r < REDUCERS ensures LiveChannel(t.mappers[m], t.reducers[r], t.channels[m][r], t.c.epoch) {
      LiveChannelAt(s, m, r);
      CountsLive(s.mappers[m], t.mappers[m], s.reducers[r], s.channels[m][r], [], 0, s.c.epoch);
      assert s.channels[m][r] + Packets([], 0) == s.channels[m][r];
      CountsLive(s.mappers[m], t.mappers[m], s.reducers[r], s.channels[m][r], Part(s, m, upto, r), s.mappers[m].rid,
                 s.c.epoch);
    }
    MapperStepLive(s, t, m);
  }

  lemma SameRowLive(s: System, t: System, m: nat)
    requires LiveParts(s) && m < |s.mappers| == |t.mappers| && t.channels == s.channels && t.reducers == s.reducers
    requires t.c.epoch == s.c.epoch && t.mappers[m].saved == s.mappers[m].saved
    ensures t.channels == s.channels[m := t.channels[m]]
    ensures forall r :: 0 <= r < REDUCERS ==> LiveChannel(t.mappers[m], t.reducers[r], t.channels[m][r], t.c.epoch)
  {
    hide LiveMapper, LiveReducer;
    forall r | 0 <= r < REDUCERS ensures LiveChannel(t.mappers[m], t.reducers[r], t.channels[m][r], t.c.epoch) {
      LiveChannelAt(s, m, r);
      forall k: nat | HasM(t.mappers[m], k, t.c.epoch)
        ensures HasR(t.reducers[r], k, t.c.epoch) || Marker(k, t.c.epoch) in t.channels[m][r]
      {
        assert HasM(s.mappers[m], k, s.c.epoch);
      }
    }
  }

  lemma FinishLive(s: System, t: System, m: nat)
    requires LiveParts(s) && Shape(t) && FinishStep(s, t, m)
    ensures LiveParts(t)
  {
    hide LiveChannel;
    LiveMapperAt(s, m);
    SameRowLive(s, t, m);
    MapperStepLive(s, t, m);
  }

  lemma CheckpointLive(s: System, t: System, m: nat, reach: set<nat>)
    requires LiveParts(s) && Known(s) && Calm(s) && Shape(t) && MapperCheckpointStep(s, t, m, reach)
    ensures LiveParts(t)
  {
    hide LiveChannel, Known, Intact, LiveMapper;
    var a, c := s.mappers[m], s.c;
    LiveMapperAt(s, m);
    CalmMapper(s, m);
    CalmCommand(s, m, 0);
    if a.link.cmds[0].rid != a.rid {
      PopLive(a, c);
      SameRowLive(s, t, m);
    } else {
      if a.stage == Joined {
        CalmIsOpen(s, m);
      }
      SaveLive(a, c, Intact(s.reducers), 0 in reach && 1 in reach);
      forall r | 0 <= r < REDUCERS ensures LiveChannel(t.mappers[m], t.reducers[r], t.channels[m][r], t.c.epoch) {
        MarkLive(s, t, m, reach, r);
      }
    }
    MapperStepLive(s, t, m);
  }

  /** Dropping a command that is not of the mapper's epoch. */
  lemma PopLive(a: Mapper, c: Coordinator)
    requires LiveMapper(a, c) && a.link.cmds != [] && a.link.cmds[0].Checkpoint? && a.link.cmds[0].rid != c.epoch
    ensures LiveMapper(a.(link := Pop(a.link)), c)
  {
    var cmds := a.link.cmds;
    assert cmds == [cmds[0]] + cmds[1..];
    forall i, j | 0 <= i < j < |cmds[1..]| && cmds[1..][i] == Checkpoint(0, c.epoch)
      ensures cmds[1..][j] != Checkpoint(c.nextCp, c.epoch)
    {
      assert cmds[i + 1] == cmds[1..][i] && cmds[j + 1] == cmds[1..][j];
    }
  }

  /** A mapper that takes part is connected to all reducers. */
  lemma CalmIsOpen(s: System, m: nat)
    requires Known(s) && Calm(s) && m < |s.mappers| && s.mappers[m].stage == Joined
    ensures s.mappers[m].conns[0] && s.mappers[m].conns[1] && AllOpen(s.mappers[m])
    ensures forall r :: 0 <= r < REDUCERS ==> s.reducers[r].stage == Joined
  {
    hide MapperCmdOk, ReducerCmdOk, LinkOk, SoundOrUnfinished, RoundComplete, Base, Sums, Tagged, MarkersOk, Conserved;
    hide Separates;
    MapperAt(s, m);
    forall r | 0 <= r < REDUCERS ensures s.reducers[r].stage == Joined && s.mappers[m].conns[r] {
      CalmReducer(s, r);
      ReducerAt(s, r);
      ChannelAt(s, m, r);
    }
  }

  lemma SaveLive(a: Mapper, c: Coordinator, sound: bool, acked: bool)
    requires LiveMapper(a, c) && a.link.cmds != [] && a.link.cmds[0].Checkpoint?
    requires a.link.cmds[0].rid == a.rid && (a.rid == c.epoch ==> a.stage == Joined && acked)
    requires forall k :: HasM(a, k, c.epoch) ==> a.stage == Joined
    requires a.stage == Joined ==> a.rid == c.epoch
    requires a.link.cmds[0].cp == 0 || a.link.cmds[0].cp == c.nextCp || a.rid != c.epoch
    requires a.rid == c.epoch ==> !HasM(a, a.link.cmds[0].cp, c.epoch) && 1 <= c.nextCp
    requires a.rid != c.epoch ==>
      a.stage == Waiting && (c.phase == RecoverReducers || c.phase == RecoverMappers)
    ensures LiveMapper(Checkpointed(a, sound, acked), c)
  {
    var cmds := a.link.cmds;
    var a' := Checkpointed(a, sound, acked);
    assert cmds == [cmds[0]] + cmds[1..];
    forall i, j | 0 <= i < j < |cmds[1..]| && cmds[1..][i] == Checkpoint(0, c.epoch)
      ensures cmds[1..][j] != Checkpoint(c.nextCp, c.epoch)
    {
      assert cmds[i + 1] == cmds[1..][i] && cmds[j + 1] == cmds[1..][j];
    }
    if a.rid == c.epoch && cmds[0].cp == 0 {
      forall j | 0 <= j < |cmds[1..]| ensures cmds[1..][j] != Checkpoint(c.nextCp, c.epoch) {
        assert cmds[j + 1] == cmds[1..][j] && cmds[0] == Checkpoint(0, c.epoch);
      }
    }
    assert forall k: nat :: HasM(a', k, c.epoch) ==> HasM(a, k, c.epoch) || (k == cmds[0].cp && a.rid == c.epoch);
  }

  lemma MarkLive(s: System, t: System, m: nat, reach: set<nat>, r: nat)
    requires LiveParts(s) && Known(s) && Calm(s) && Shape(t) && MapperCheckpointStep(s, t, m, reach) && r < REDUCERS
    requires s.mappers[m].link.cmds[0].rid == s.mappers[m].rid
    ensures LiveChannel(t.mappers[m], t.reducers[r], t.channels[m][r], t.c.epoch)
  {
    hide LiveReducer, LiveMapper, LiveChannel, Known, Intact, Calm;
    var a, b, ch, e := s.mappers[m], s.reducers[r], s.channels[m][r], s.c.epoch;
    CalmQuiet(s);
    LiveChannelAt(s, m, r);
    CalmMapper(s, m);
    CalmCommand(s, m, 0);
    if a.stage == Joined {
      CalmIsOpen(s, m);
      NoFinalYet(s, m, r);
      MarkedLive(a, t.mappers[m], b, ch, a.link.cmds[0].cp, e);
    } else {
      OldMarkLive(a, t.mappers[m], b, ch, t.channels[m][r], a.link.cmds[0].cp, e);
    }
  }

  lemma MarkedLive(a: Mapper, a': Mapper, b: Reducer, ch: seq<Packet>, k: nat, e: nat)
    requires LiveChannel(a, b, ch, e) && k in a'.saved && a'.saved == a.saved[k := a'.saved[k]]
    requires forall i :: 0 <= i < |ch| ==> ch[i] != Marker(0, e)
    ensures LiveChannel(a', b, ch + [Marker(k, e)], e)
  {
    var ch' := ch + [Marker(k, e)];
    forall j: nat | HasM(a', j, e) ensures HasR(b, j, e) || Marker(j, e) in ch' {
      if j != k {
        assert HasM(a, j, e);
      }
    }
  }

  /** A checkpoint of an earlier epoch. */
  lemma OldMarkLive(a: Mapper, a': Mapper, b: Reducer, ch: seq<Packet>, ch': seq<Packet>, k: nat, e: nat)
    requires LiveChannel(a, b, ch, e) && a.rid != e && (ch' == ch || ch' == ch + [Marker(k, a.rid)])
    requires k in a'.saved && a'.saved == a.saved[k := a'.saved[k]] && a'.saved[k].epoch == a.rid
    requires forall j :: !HasM(a, j, e)
    ensures LiveChannel(a', b, ch', e)
  {
    forall j: nat ensures !HasM(a', j, e) {
      assert !HasM(a, j, e);
    }
  }

  /** While a checkpoint is asked for, the final marker is not yet sent. */
  lemma NoFinalYet(s: System, m: nat, r: nat)
    requires LiveParts(s) && Known(s) && Calm(s) && m < |s.mappers| && r < REDUCERS && s.mappers[m].stage == Joined
    requires var l := s.mappers[m].link; l.cmds != [] && l.cmds[0].Checkpoint? && l.cmds[0].rid == s.mappers[m].rid
    ensures forall i :: 0 <= i < |s.channels[m][r]| ==> s.channels[m][r][i] != Marker(0, s.c.epoch)
  {
    hide Base, SoundOrUnfinished, RoundComplete, Tagged, Wired, Conserved, Separates, LiveReducer, LiveChannel;
    hide MapperOk, ReducerOk, OutAlarms;
    LiveMapperAt(s, m);
    CalmMapper(s, m);
    CalmCommand(s, m, 0);
    ChannelAt(s, m, r);
    forall i | 0 <= i < |s.channels[m][r]| ensures s.channels[m][r][i] != Marker(0, s.c.epoch) {
      assert CurrentMarker(s.channels[m][r][i], s.c.epoch) ==> HasM(s.mappers[m], s.channels[m][r][i].cp, s.c.epoch);
    }
  }

  lemma MapperRecoverLive(s: System, t: System, m: nat)
    requires LiveParts(s) && Known(s) && Calm(s) && Shape(t) && MapperRecoverStep(s, t, m)
    ensures LiveParts(t)
  {
    hide LiveChannel, Known;
    var cmds := s.mappers[m].link.cmds;
    LiveMapperAt(s, m);
    CalmMapper(s, m);
    CalmCommand(s, m, 0);
    assert cmds == [cmds[0]] + cmds[1..];
    forall i, j | 0 <= i < j < |cmds[1..]| && cmds[1..][i] == Checkpoint(0, s.c.epoch)
      ensures cmds[1..][j] != Checkpoint(s.c.nextCp, s.c.epoch)
    {
      assert cmds[i + 1] == cmds[1..][i] && cmds[j + 1] == cmds[1..][j];
    }
    SameRowLive(s, t, m);
    MapperStepLive(s, t, m);
  }

  lemma TakenLive(a: Mapper, b: Reducer, b': Reducer, ch: seq<Packet>, e: nat)
    requires LiveChannel(a, b, ch, e) && b'.saved == b.saved && ch != [] && !CurrentMarker(ch[0], e)
    ensures LiveChannel(a, b', ch[1..], e)
  {
    assert ch == [ch[0]] + ch[1..];
    forall k: nat | HasM(a, k, e) ensures HasR(b', k, e) || Marker(k, e) in ch[1..] {
      assert HasR(b, k, e) || Marker(k, e) in ch;
    }
    forall i, j | 0 <= i < j < |ch[1..]| && ch[1..][i] == Marker(0, e) ensures !CurrentMarker(ch[1..][j], e) {
      assert ch[i + 1] == ch[1..][i] && ch[j + 1] == ch[1..][j];
    }
  }

  lemma ReducerSameLive(a: Mapper, b: Reducer, b': Reducer, ch: seq<Packet>, e: nat)
    requires LiveChannel(a, b, ch, e) && b'.saved == b.saved
    ensures LiveChannel(a, b', ch, e)
  {
    forall k: nat | HasM(a, k, e) ensures HasR(b', k, e) || Marker(k, e) in ch {
      assert HasR(b, k, e) || Marker(k, e) in ch;
    }
  }

  /** A reducer takes no current marker off a channel without saving. */
  lemma HeadNotCurrent(s: System, m: nat, r: nat)
    requires Known(s) && Calm(s) && m < |s.mappers| && r < REDUCERS && s.channels[m][r] != []
    requires var p := s.channels[m][r][0]; !(p.Marker? && p.rid == s.reducers[r].rid)
    ensures !CurrentMarker(s.channels[m][r][0], s.c.epoch)
  {
    hide Base, SoundOrUnfinished, RoundComplete, Wired, Conserved, Separates, MapperOk, ReducerOk, OutAlarms;
    CalmReducer(s, r);
    if s.reducers[r].stage == Waiting {
      RecoversFirst(s, m);
      ChannelAt(s, m, r);
    }
  }

  lemma RecoversFirst(s: System, m: nat)
    requires Known(s) && m < |s.mappers| && s.c.phase == RecoverReducers
    ensures s.mappers[m].stage == Waiting
  {
    hide Base, SoundOrUnfinished, RoundComplete, Channels, Reducers, OutAlarms;
    MapperAt(s, m);
  }

  lemma DeliverLive(s: System, t: System, m: nat, r: nat)
    requires LiveParts(s) && Known(s) && Calm(s) && Shape(t) && DeliverStep(s, t, m, r)
    ensures LiveParts(t)
  {
    hide LiveChannel, Known, LiveMapper, Add;
    HeadNotCurrent(s, m, r);
    LiveReducerAt(s, r);
    forall n, q | 0 <= n < |t.mappers| && 0 <= q < REDUCERS
      ensures LiveChannel(t.mappers[n], t.reducers[q], t.channels[n][q], t.c.epoch)
    {
      LiveChannelAt(s, n, q);
      if q == r && n == m {
        TakenLive(s.mappers[n], s.reducers[r], t.reducers[r], s.channels[n][r], s.c.epoch);
      } else if q == r {
        ReducerSameLive(s.mappers[n], s.reducers[r], t.reducers[r], s.channels[n][r], s.c.epoch);
      }
    }
    ReducerStepLive(s, t, r);
  }

  lemma SavedLive(a: Mapper, b: Reducer, b': Reducer, ch: seq<Packet>, k: nat, rid: nat, e: nat)
    requires LiveChannel(a, b, ch, e) && ch != [] && ch[0] == Marker(k, rid)
    requires k in b'.saved && b'.saved[k].epoch == rid && b'.saved == b.saved[k := b'.saved[k]]
    requires rid != e ==> forall j :: !HasM(a, j, e)
    ensures LiveChannel(a, b', ch[1..], e)
  {
    assert ch == [ch[0]] + ch[1..];
    forall j: nat | HasM(a, j, e) ensures HasR(b', j, e) || Marker(j, e) in ch[1..] {
      assert HasR(b, j, e) || Marker(j, e) in ch;
    }
    forall i, j | 0 <= i < j < |ch[1..]| && ch[1..][i] == Marker(0, e) ensures !CurrentMarker(ch[1..][j], e) {
      assert ch[i + 1] == ch[1..][i] && ch[j + 1] == ch[1..][j];
    }
  }

  lemma AlignLive(s: System, t: System, r: nat, cp: nat)
    requires LiveParts(s) && Known(s) && Calm(s) && Shape(t) && AlignStep(s, t, r, cp)
    ensures LiveParts(t)
  {
    hide LiveChannel, Known, LiveMapper;
    LiveReducerAt(s, r);
    CalmReducer(s, r);
    forall n, q | 0 <= n < |t.mappers| && 0 <= q < REDUCERS
      ensures LiveChannel(t.mappers[n], t.reducers[q], t.channels[n][q], t.c.epoch)
    {
      LiveChannelAt(s, n, q);
      if q == r {
        CalmMapper(s, n);
        if s.reducers[r].stage == Waiting {
          RecoversFirst(s, n);
        }
        assert s.channels[n][r][0] == Marker(cp, s.reducers[r].rid);
        SavedLive(s.mappers[n], s.reducers[r], t.reducers[r], s.channels[n][r], cp, s.reducers[r].rid, s.c.epoch);
      }
    }
    ReducerStepLive(s, t, r);
  }

  lemma ReducerRecoverLive(s: System, t: System, r: nat)
    requires LiveParts(s) && Known(s) && Calm(s) && Shape(t) && ReducerRecoverStep(s, t, r)
    ensures LiveParts(t)
  {
    hide LiveChannel, Known, LiveMapper;
    var cmds := s.reducers[r].link.cmds;
    LiveReducerAt(s, r);
    CalmReducer(s, r);
    assert cmds == [cmds[0]] + cmds[1..];
    forall n, q | 0 <= n < |t.mappers| && 0 <= q < REDUCERS
      ensures LiveChannel(t.mappers[n], t.reducers[q], t.channels[n][q], t.c.epoch)
    {
      LiveChannelAt(s, n, q);
      if q == r {
        ReducerSameLive(s.mappers[n], s.reducers[r], t.reducers[r], s.channels[n][r], s.c.epoch);
      }
    }
    ReducerStepLive(s, t, r);
  }

  // ------------------------------------------------------------ steps of the coordinator

  lemma HeardLive(a: Mapper, c: Coordinator)
    requires LiveMapper(a, c) && a.link.reports != []
    requires c.phase == LastCp ==> a.link.reports[0] != RecoveryAck(c.epoch)
    ensures LiveMapper(a.(link := Heard(a.link, c)), c)
  {
    var reports := a.link.reports;
    assert reports == [reports[0]] + reports[1..];
  }

  lemma ReducerHeardLive(b: Reducer, c: Coordinator)
    requires LiveReducer(b, c) && b.link.reports != []
    requires c.phase == LastCp ==> b.link.reports[0] != RecoveryAck(c.epoch)
    ensures LiveReducer(b.(link := Heard(b.link, c)), c)
  {
    var reports := b.link.reports;
    assert reports == [reports[0]] + reports[1..];
  }

  /** In the checkpoint phase no final checkpoint is asked for, and none beyond the round's. */
  ghost predicate FinalAhead(a: Mapper, c: Coordinator) {
    && (c.phase == Cp ==> !HasM(a, 0, c.epoch) && Checkpoint(0, c.epoch) !in a.link.cmds)
    && Checkpoint(c.nextCp + 1, c.epoch) !in a.link.cmds
  }

  lemma CalmAhead(s: System, m: nat)
    requires Known(s) && !s.c.alarm && m < |s.mappers|
    ensures FinalAhead(s.mappers[m], s.c)
    ensures s.c.phase == LastCp ==> RecoveryAck(s.c.epoch) !in s.mappers[m].link.reports
  {
    hide Inv, OutAlarms, ChannelsBase, ReducersBase, RoundComplete, Undecided;
    CalmMapper(s, m);
    MapperBaseAt(s, m);
    forall i | 0 <= i < |s.mappers[m].link.cmds|
      ensures s.mappers[m].link.cmds[i] != Checkpoint(s.c.nextCp + 1, s.c.epoch)
      ensures s.c.phase == Cp ==> s.mappers[m].link.cmds[i] != Checkpoint(0, s.c.epoch)
    {
      CalmCommand(s, m, i);
    }
  }

  lemma CalmReports(s: System, r: nat)
    requires Known(s) && r < |s.reducers|
    ensures s.c.phase == LastCp ==> RecoveryAck(s.c.epoch) !in s.reducers[r].link.reports
  {
    hide Inv, OutAlarms, ChannelsBase, MappersBase, RoundComplete, Undecided, Sums;
    ReducerBaseAt(s, r);
  }

  lemma HearMapperLive(s: System, m: nat)
    requires LiveParts(s) && Known(s) && !s.c.alarm && m < |s.mappers| && s.mappers[m].link.reports != []
    ensures LiveParts(HearMapper(s, m))
    ensures forall n :: 0 <= n < |s.mappers| ==> FinalAhead(HearMapper(s, m).mappers[n], s.c)
  {
    hide LiveChannel, LiveMapper, Known, Heard, FinalAhead;
    var h := HearMapper(s, m);
    LiveMapperAt(s, m);
    CalmAhead(s, m);
    HeardLive(s.mappers[m], s.c);
    SameRowLive(s, h, m);
    MapperStepLive(s, h, m);
    HeardCmds(s.mappers[m].link, s.c);
    forall n | 0 <= n < |s.mappers| ensures FinalAhead(h.mappers[n], s.c) {
      CalmAhead(s, n);
      AheadKept(s.mappers[n], h.mappers[n], s.c);
    }
  }

  lemma AheadKept(a: Mapper, a': Mapper, c: Coordinator)
    requires FinalAhead(a, c) && a'.saved == a.saved && a'.link.cmds == a.link.cmds
    ensures FinalAhead(a', c)
  {
  }

  lemma HearReducerLive(s: System, r: nat)
    requires LiveParts(s) && Known(s) && !s.c.alarm && r < |s.reducers| && s.reducers[r].link.reports != []
    ensures LiveParts(HearReducer(s, r))
    ensures forall n :: 0 <= n < |s.mappers| ==> FinalAhead(HearReducer(s, r).mappers[n], s.c)
  {
    hide LiveChannel, LiveMapper, LiveReducer, Known, Heard, FinalAhead;
    var h := HearReducer(s, r);
    LiveReducerAt(s, r);
    CalmReports(s, r);
    ReducerHeardLive(s.reducers[r], s.c);
    forall n, q | 0 <= n < |h.mappers| && 0 <= q < REDUCERS
      ensures LiveChannel(h.mappers[n], h.reducers[q], h.channels[n][q], h.c.epoch)
    {
      LiveChannelAt(s, n, q);
      if q == r {
        ReducerSameLive(s.mappers[n], s.reducers[r], h.reducers[r], s.channels[n][r], s.c.epoch);
      }
    }
    ReducerStepLive(s, h, r);
    forall n | 0 <= n < |s.mappers| ensures FinalAhead(h.mappers[n], s.c) {
      CalmAhead(s, n);
    }
  }

  /** A command is added and the phase or the round changes. */
  lemma TurnLive(h: System, t: System)
    requires LiveParts(h) && Shape(t) && t == h.(c := t.c, mappers := t.mappers) && |t.mappers| == |h.mappers|
    requires t.c.epoch == h.c.epoch && (t.c.phase == RecoverReducers || t.c.phase == RecoverMappers ==> !t.c.asked)
    requires forall m :: 0 <= m < |h.mappers| ==>
      t.mappers[m].saved == h.mappers[m].saved && LiveMapper(t.mappers[m], t.c)
    requires forall r :: 0 <= r < |h.reducers| ==> LiveReducer(h.reducers[r], t.c)
    ensures LiveParts(t)
  {
    hide LiveMapper, LiveReducer;
    forall m, r | 0 <= m < |t.mappers| && 0 <= r < REDUCERS
      ensures LiveChannel(t.mappers[m], t.reducers[r], t.channels[m][r], t.c.epoch)
    {
      LiveChannelAt(h, m, r);
      CountsLive(h.mappers[m], t.mappers[m], h.reducers[r], h.channels[m][r], [], 0, h.c.epoch);
      assert h.channels[m][r] + Packets([], 0) == h.channels[m][r];
    }
  }

  lemma MapperTurnLive(a: Mapper, c: Coordinator, cmds: seq<Cmd>, c': Coordinator)
    requires LiveMapper(a, c) && FinalAhead(a, c) && c'.epoch == c.epoch && 1 <= c.nextCp
    requires
      || (c.phase == Cp && c' == c.(nextCp := c.nextCp + 1, asked := false) && cmds == [])
      || (c.phase == Cp && c' == c.(phase := LastCp) && cmds == [Checkpoint(0, c.epoch)])
      || (c.phase == RecoverReducers && c' == c.(phase := RecoverMappers) && cmds == [Recover(c.epoch, c.base)])
      || (c.phase == RecoverMappers && c' == c.(phase := Cp) && !c.asked && cmds == [])
      || (c.phase == LastCp && c' == c.(phase := Exiting) && cmds == [])
      || (c.phase == Cp && c' == c.(asked := true) && cmds == [Checkpoint(c.nextCp, c.epoch)])
    ensures LiveMapper(a.(link := a.link.(cmds := a.link.cmds + cmds)), c')
  {
    var all := a.link.cmds + cmds;
    forall i, j | 0 <= i < j < |all| && all[i] == Checkpoint(0, c.epoch)
      ensures all[j] != Checkpoint(c'.nextCp, c.epoch)
    {
      if j < |a.link.cmds| {
        assert all[i] == a.link.cmds[i] && all[j] == a.link.cmds[j];
      } else if i < |a.link.cmds| {
        assert all[i] == a.link.cmds[i] && a.link.cmds[i] in a.link.cmds;
      }
    }
  }

  lemma ReducerTurnLive(b: Reducer, c: Coordinator, c': Coordinator)
    requires LiveReducer(b, c) && c'.epoch == c.epoch && (c'.phase == RecoverReducers ==> c'.phase == c.phase)
    requires c'.phase == LastCp && c.phase != LastCp ==> !HasR(b, 0, c.epoch)
    requires c'.base == c.base
    ensures LiveReducer(b, c')
  {
  }

  /** In the checkpoint phase no reducer has the final checkpoint of the epoch. */
  ghost predicate NoFinal(h: System) {
    h.c.phase == Cp ==> forall r :: 0 <= r < |h.reducers| ==> !HasR(h.reducers[r], 0, h.c.epoch)
  }

  lemma SettleLive(h: System)
    requires LiveParts(h) && NoFinal(h) && 1 <= h.c.nextCp
    requires forall m :: 0 <= m < |h.mappers| ==> FinalAhead(h.mappers[m], h.c)
    ensures LiveParts(Settled(h))
  {
    hide LiveParts, NoFinal, FinalAhead, RoundComplete, StreamsDone, ReducersRecovered, MappersRecovered, AllFinal;
    var t := Settled(h);
    match h.c.phase
    case Cp =>
      if RoundComplete(h) {
        TurnsLive(h, t, []);
      } else if StreamsDone(h) {
        TurnsLive(h, t, [Checkpoint(0, h.c.epoch)]);
      }
    case RecoverReducers => if ReducersRecovered(h) { TurnsLive(h, t, [Recover(h.c.epoch, h.c.base)]); }
    case RecoverMappers => if MappersRecovered(h) { TurnsLive(h, t, []); }
    case LastCp => if AllFinal(h) { TurnsLive(h, t, []); }
    case Exiting =>
  }

  lemma TurnsLive(h: System, t: System, cmds: seq<Cmd>)
    requires LiveParts(h) && NoFinal(h) && 1 <= h.c.nextCp && t == h.(c := t.c, mappers := t.mappers)
    requires forall m :: 0 <= m < |h.mappers| ==> FinalAhead(h.mappers[m], h.c)
    requires |t.mappers| == |h.mappers| && forall m :: 0 <= m < |h.mappers| ==>
      t.mappers[m] == h.mappers[m].(link := h.mappers[m].link.(cmds := h.mappers[m].link.cmds + cmds))
    requires
      var c := h.c;
      || (c.phase == Cp && t.c == c.(nextCp := c.nextCp + 1, asked := false) && cmds == [])
      || (c.phase == Cp && t.c == c.(phase := LastCp) && cmds == [Checkpoint(0, c.epoch)])
      || (c.phase == RecoverReducers && t.c == c.(phase := RecoverMappers) && cmds == [Recover(c.epoch, c.base)])
      || (c.phase == RecoverMappers && t.c == c.(phase := Cp) && cmds == [])
      || (c.phase == LastCp && t.c == c.(phase := Exiting) && cmds == [])
    ensures LiveParts(t)
  {
    hide LiveMapper, LiveReducer, LiveChannel, FinalAhead;
    forall m | 0 <= m < |h.mappers| ensures LiveMapper(t.mappers[m], t.c) {
      LiveMapperAt(h, m);
      MapperTurnLive(h.mappers[m], h.c, cmds, t.c);
    }
    forall r | 0 <= r < |h.reducers| ensures LiveReducer(h.reducers[r], t.c) {
      LiveReducerAt(h, r);
      ReducerTurnLive(h.reducers[r], h.c, t.c);
    }
    TurnLive(h, t);
  }

  lemma CalmNoFinal(s: System)
    requires Known(s) && !s.c.alarm && Shape(s)
    ensures NoFinal(s) && 1 <= s.c.nextCp
  {
    hide Base, SoundOrUnfinished, RoundComplete, Tagged, Wired, Conserved, Separates, OutAlarms, ReducerOk, MapperOk;
    forall r | 0 <= r < |s.reducers| && s.c.phase == Cp ensures !HasR(s.reducers[r], 0, s.c.epoch) {
      ChannelAt(s, 0, r);
      CalmMapper(s, 0);
    }
  }

  lemma AskLive(s: System, t: System)
    requires LiveParts(s) && Known(s) && Calm(s) && Shape(t) && AskStep(s, t)
    ensures LiveParts(t)
  {
    hide LiveMapper, LiveReducer, LiveChannel, Known;
    forall m | 0 <= m < |s.mappers| ensures LiveMapper(t.mappers[m], t.c) {
      LiveMapperAt(s, m);
      CalmAhead(s, m);
      CalmMapper(s, m);
      MapperTurnLive(s.mappers[m], s.c, [Checkpoint(s.c.nextCp, s.c.epoch)], t.c);
    }
    forall r | 0 <= r < |s.reducers| ensures LiveReducer(s.reducers[r], t.c) {
      LiveReducerAt(s, r);
      ReducerTurnLive(s.reducers[r], s.c, t.c);
    }
    TurnLive(s, t);
  }

  /** A new epoch has everything still before it. */
  lemma RollbackLive(s: System, t: System)
    requires Known(s) && Known(t) && RollbackStep(s, t)
    ensures LiveParts(t)
  {
    hide Known, RollbackId, LastCps;
    KnownShape(t);
    forall m | 0 <= m < |t.mappers| ensures LiveMapper(t.mappers[m], t.c) {
      CalmMapper(t, m);
      forall i | 0 <= i < |t.mappers[m].link.cmds|
        ensures t.mappers[m].link.cmds[i] != Checkpoint(t.c.nextCp, t.c.epoch)
      {
        CalmCommand(t, m, i);
      }
      forall i | 0 <= i < |t.mappers[m].link.cmds| ensures t.mappers[m].link.cmds[i] != Checkpoint(0, t.c.epoch) {
        CalmCommand(t, m, i);
      }
    }
    forall m, r | 0 <= m < |t.mappers| && 0 <= r < REDUCERS
      ensures LiveChannel(t.mappers[m], t.reducers[r], t.channels[m][r], t.c.epoch)
    {
      NothingCurrent(t, m, r);
    }
  }

  lemma KnownShape(s: System)
    requires Known(s)
    ensures Shape(s)
  {
  }

  lemma NothingCurrent(s: System, m: nat, r: nat)
    requires Known(s) && !s.c.alarm && m < |s.mappers| && r < REDUCERS && s.mappers[m].stage == Waiting && Shape(s)
    ensures LiveChannel(s.mappers[m], s.reducers[r], s.channels[m][r], s.c.epoch)
  {
    hide Base, SoundOrUnfinished, RoundComplete, Wired, Conserved, Separates, OutAlarms, ReducerOk, MapperOk, MarkersOk;
    CalmMapper(s, m);
    ChannelAt(s, m, r);
  }

  // ------------------------------------------------------------ runs

  /** Calm is only restored by a rollback. */
  lemma CalmBefore(s: System, t: System, step: Step)
    requires Shape(s) && NextStep(s, t, step) && Calm(t) && !step.Rollback?
    ensures Calm(s) && !step.MapperCrash? && !step.ReducerCrash? && !step.RestartM? && !step.RestartR?
  {
    hide NextStep, Settled, Calm;
    if step.HearM? || step.HearR? {
      HearingCalm(s, t, step);
    } else {
      UpsAndDowns(s, t, step);
    }
  }

  lemma HearingCalm(s: System, t: System, step: Step)
    requires Shape(s) && NextStep(s, t, step) && Calm(t) && (step.HearM? || step.HearR?)
    ensures Calm(s)
  {
    hide Heard, Settled;
    match step
    case HearM(m) => SettledCalm(s, HearMapper(s, m));
    case HearR(r) => SettledCalm(s, HearReducer(s, r));
  }

  lemma UpsAndDowns(s: System, t: System, step: Step)
    requires Shape(s) && NextStep(s, t, step) && Calm(t) && !step.Rollback? && !step.HearM? && !step.HearR?
    ensures Calm(s) && !step.MapperCrash? && !step.ReducerCrash? && !step.RestartM? && !step.RestartR?
  {
    hide Reaches, Sent, Aligned;
    match step
    case MapperCrash(m, _) => CalmIsUp(t, m, 0);
    case ReducerCrash(r) => CalmIsUp(t, 0, r);
    case RestartM(_) =>
    case RestartR(_) =>
    case Send(m, _, _) => MappersUp(s, t);
    case Finish(_) => MappersUp(s, t);
    case MapperCheckpoint(_, _) => MappersUp(s, t);
    case MapperRecover(_) => MappersUp(s, t);
    case Ask => MappersUp(s, t);
    case Deliver(_, _) => ReducersUp(s, t);
    case Align(_, _) => ReducersUp(s, t);
    case ReducerRecover(_) => ReducersUp(s, t);
  }

  lemma CalmIsUp(s: System, m: nat, r: nat)
    ensures Calm(s) && m < |s.mappers| ==> s.mappers[m].up
    ensures Calm(s) && r < |s.reducers| ==> s.reducers[r].up
  {
  }

  lemma MappersUp(s: System, t: System)
    requires Calm(t) && t.c.alarm == s.c.alarm && t.reducers == s.reducers && |t.mappers| == |s.mappers|
    requires forall m :: 0 <= m < |s.mappers| ==> t.mappers[m].up == s.mappers[m].up
    ensures Calm(s)
  {
  }

  lemma ReducersUp(s: System, t: System)
    requires Calm(t) && t.c == s.c && t.mappers == s.mappers && |t.reducers| == |s.reducers|
    requires forall r :: 0 <= r < |s.reducers| ==> t.reducers[r].up == s.reducers[r].up
    ensures Calm(s)
  {
  }

  lemma SettledCalm(s: System, h: System)
    requires h.c == s.c && |h.mappers| == |s.mappers| && |h.reducers| == |s.reducers| && Calm(Settled(h))
    requires forall m :: 0 <= m < |s.mappers| ==> h.mappers[m].up == s.mappers[m].up
    requires forall r :: 0 <= r < |s.reducers| ==> h.reducers[r].up == s.reducers[r].up
    ensures Calm(s)
  {
    var t := Settled(h);
    assert forall m :: 0 <= m < |h.mappers| ==> t.mappers[m].up == h.mappers[m].up;
  }

  lemma NextKeepsLive(s: System, t: System, step: Step)
    requires Live(s) && Known(s) && Known(t) && Shape(s) && NextStep(s, t, step)
    ensures Live(t)
  {
    hide Known, LiveParts, Calm, NextStep;
    KnownShape(t);
    if Calm(t) {
      if step.Rollback? {
        RollbackStepLive(s, t);
      } else {
        CalmBefore(s, t, step);
        CalmQuiet(s);
        StepLive(s, t, step);
      }
    }
  }

  lemma RollbackStepLive(s: System, t: System)
    requires Known(s) && Known(t) && Shape(s) && NextStep(s, t, Rollback)
    ensures LiveParts(t)
  {
    hide Known, LiveParts, RollbackStep;
    RollbackLive(s, t);
  }

  lemma CalmQuiet(s: System)
    requires Calm(s)
    ensures !s.c.alarm
  {
  }

  lemma StepLive(s: System, t: System, step: Step)
    requires LiveParts(s) && Known(s) && Calm(s) && !s.c.alarm && Shape(s) && Shape(t) && NextStep(s, t, step)
    requires !step.MapperCrash? && !step.ReducerCrash? && !step.RestartM? && !step.RestartR? && !step.Rollback?
    ensures LiveParts(t)
  {
    hide Known, LiveParts, Calm, NoFinal, Settled, Shape, FinalAhead;
    match step
    case Send(m, upto, moved) => SendLive(s, t, m, upto, moved);
    case Finish(m) => FinishLive(s, t, m);
    case MapperCheckpoint(m, reach) => CheckpointLive(s, t, m, reach);
    case MapperRecover(m) => MapperRecoverLive(s, t, m);
    case Deliver(m, r) => DeliverLive(s, t, m, r);
    case Align(r, cp) => AlignLive(s, t, r, cp);
    case ReducerRecover(r) => ReducerRecoverLive(s, t, r);
    case HearM(m) =>
      CalmNoFinal(s);
      HearMapperLive(s, m);
      NoFinalKept(s, HearMapper(s, m));
      SettleLive(HearMapper(s, m));
    case HearR(r) =>
      CalmNoFinal(s);
      HearReducerLive(s, r);
      NoFinalKept(s, HearReducer(s, r));
      SettleLive(HearReducer(s, r));
    case Ask => AskLive(s, t);
  }

  lemma NoFinalKept(s: System, h: System)
    requires NoFinal(s) && h.c == s.c && |h.reducers| == |s.reducers|
    requires forall r :: 0 <= r < |s.reducers| ==> h.reducers[r].saved == s.reducers[r].saved
    ensures NoFinal(h)
  {
    forall r | 0 <= r < |h.reducers| && h.c.phase == Cp ensures !HasR(h.reducers[r], 0, h.c.epoch) {
      assert !HasR(s.reducers[r], 0, s.c.epoch);
    }
  }

  lemma InitLive(s: System)
    requires Init(s)
    ensures Live(s)
  {
  }

  lemma {:induction false} RunKeepsLive(run: seq<System>, steps: seq<Step>, rules: Rules, i: nat)
    requires Run(run, steps) && Follows(run, steps, rules) && Held(rules) && i <= |steps| && run[|steps|].c.resets
    ensures Live(run[i]) && Known(run[i])
  {
    hide Inv, Base, Init, Next, Allowed, Held, Live, OutAlarms;
    RunKeepsInv(run, steps, rules, i);
    RunKeepsBase(run, steps, i);
    RunKeepsAlarm(run, steps, i);
    if i == 0 {
      InitLive(run[0]);
    } else {
      RunKeepsLive(run, steps, rules, i - 1);
      StepOfRun(run, steps, i - 1);
      NextKeepsLive(run[i - 1], run[i], steps[i - 1]);
    }
  }

  lemma StepOfRun(run: seq<System>, steps: seq<Step>, i: nat)
    requires Run(run, steps) && i < |steps|
    ensures Shape(run[i]) && NextStep(run[i], run[i + 1], steps[i])
  {
    hide NextStep, Init;
    assert Next(run[i], run[i + 1], steps[i]);
  }

  lemma ReachableLive(s: System, may: set<Kind>)
    requires Reachable(s, may) && RoundCp !in may && FinalCp !in may && s.c.resets
    ensures Live(s) && Known(s)
  {
    hide Init, Next, Live, Known, Allowed;
    var run, steps :| Run(run, steps) && run[|steps|] == s && Follows(run, steps, Rules(may, true));
    RunKeepsLive(run, steps, Rules(may, true), |steps|);
  }
}
