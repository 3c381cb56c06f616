/**
 * What the checkpoints of the word count guarantee. Some of it holds in every run; the rest if acknowledged recoveries
 * reset the last checkpoint and mappers restarted in the first epoch take no checkpoint of a round, or none at all.
 * `DataflowLimits` shows that these conditions are exact.
 */
module DataflowTheorems {
  import opened WordCount
  import opened Dataflow
  import opened DataflowInv
  import opened DataflowBase
  import opened DataflowSteps
  import opened DataflowLate

  /** All workers have acknowledged checkpoint `k`. */
  ghost predicate Completed(s: System, k: nat) {
    1 <= k < s.c.nextCp
  }

  /** All workers have written checkpoint `k`, and the mappers' cursors lie within their streams. */
  ghost predicate Written(s: System, k: nat) {
    && |s.reducers| == REDUCERS && |s.mappers| == |s.files|
    && (forall m :: 0 <= m < |s.mappers| ==> k in s.mappers[m].saved && s.mappers[m].saved[k].cursor <= |s.files[m]|)
    && (forall r :: 0 <= r < |s.reducers| ==> k in s.reducers[r].saved)
  }

  /** Where checkpoint `k` cuts the streams. */
  function Cut(s: System, k: nat): (cut: seq<nat>)
    requires forall m :: 0 <= m < |s.mappers| ==> k in s.mappers[m].saved
    ensures |cut| == |s.mappers|
    ensures forall m :: 0 <= m < |s.mappers| ==> cut[m] == s.mappers[m].saved[k].cursor
  {
    seq(|s.mappers|, m requires 0 <= m < |s.mappers| => s.mappers[m].saved[k].cursor)
  }

  /**
   * A consistent cut: each reducer's file counts exactly the words before the mappers' saved cursors that are routed
   * to it, so that the two files together are the sequential count of those words.
   */
  ghost predicate Consistent(s: System, k: nat)
    requires Written(s, k)
  {
    && (forall r :: 0 <= r < REDUCERS ==> CountsExactly(s.reducers[r].saved[k].wc, s.files, Cut(s, k), r))
    && s.reducers[0].saved[k].wc + s.reducers[1].saved[k].wc == SequentialCount(AllWords(s.files, Cut(s, k)))
  }

  lemma MatchesIsConsistent(s: System, k: nat)
    requires Base(s)
    requires forall m, r :: 0 <= m < |s.mappers| && 0 <= r < REDUCERS ==>
      Matches(s.files[m], s.mappers[m], s.reducers[r], k, m, r)
    ensures Written(s, k) && Consistent(s, k)
  {
    hide MapperBase, ReducerBase, ChannelsBase, Undecided, RoundComplete, Items, Sums;
    forall r | 0 <= r < REDUCERS
      ensures k in s.reducers[r].saved
    {
      assert Matches(s.files[0], s.mappers[0], s.reducers[r], k, 0, r);
    }
    forall m | 0 <= m < |s.mappers|
      ensures k in s.mappers[m].saved && s.mappers[m].saved[k].cursor <= |s.files[m]|
    {
      assert Matches(s.files[m], s.mappers[m], s.reducers[0], k, m, 0);
    }
    forall r | 0 <= r < REDUCERS ensures CountsExactly(s.reducers[r].saved[k].wc, s.files, Cut(s, k), r) {
      ReducerFile(s, k, r);
    }
    MergeIsSequential(s.reducers[0].saved[k].wc, s.reducers[1].saved[k].wc, s.files, Cut(s, k));
  }

  lemma ReducerFile(s: System, k: nat, r: nat)
    requires Base(s) && r < REDUCERS && Written(s, k)
    requires forall m :: 0 <= m < |s.mappers| ==> Matches(s.files[m], s.mappers[m], s.reducers[r], k, m, r)
    ensures CountsExactly(s.reducers[r].saved[k].wc, s.files, Cut(s, k), r)
  {
    hide MapperBase, ChannelsBase, Undecided, RoundComplete, Items, Sums, LinkBase;
    var file := s.reducers[r].saved[k];
    ReducerBaseAt(s, r);
    forall m | 0 <= m < |s.mappers| ensures file.seen[m] == Items(s.files[m], r, Cut(s, k)[m]) {
      assert Matches(s.files[m], s.mappers[m], s.reducers[r], k, m, r);
    }
    SeenExactly(file.wc, s.files, Cut(s, k), file.seen, r);
  }

  /** Every completed checkpoint is a consistent cut. */
  lemma CompletedIsConsistent(s: System, k: nat, may: set<Kind>)
    requires Reachable(s, may) && RoundCp !in may && s.c.resets && Completed(s, k)
    ensures Written(s, k) && Consistent(s, k)
  {
    hide Reachable, Base, Sound, Matches;
    ReachableSound(s, may);
    ReachableBase(s, may);
    BaseShape(s);
    forall m, r | 0 <= m < |s.mappers| && 0 <= r < REDUCERS
      ensures Matches(s.files[m], s.mappers[m], s.reducers[r], k, m, r)
    {
      assert AllMatch(s.files[m], s.mappers[m], s.reducers[r], m, r, s.c.nextCp);
    }
    MatchesIsConsistent(s, k);
  }

  function Ends(s: System): (cut: seq<nat>)
    requires |s.files| == |s.mappers|
    ensures |cut| == |s.files| && forall m :: 0 <= m < |s.files| ==> cut[m] == |s.files[m]|
  {
    seq(|s.files|, m requires 0 <= m < |s.files| => |s.files[m]|)
  }

  /**
   * Exactly once: when the coordinator exits, the reducers' final files (id 0) merge into the sequential count of all
   * words of all files, whatever crashed and however often the system rolled back.
   */
  lemma ExactlyOnce(s: System, may: set<Kind>)
    requires Reachable(s, may) && RoundCp !in may && FinalCp !in may && s.c.resets && s.c.phase == Exiting
    ensures Written(s, 0) && Consistent(s, 0)
    ensures |s.files| == |s.mappers|
    ensures s.reducers[0].saved[0].wc + s.reducers[1].saved[0].wc == SequentialCount(AllWords(s.files, Ends(s)))
  {
    hide Reachable, SequentialCount, AllWords, Base;
    ReachableInv(s, may);
    ReachableBase(s, may);
    forall m, r | 0 <= m < |s.mappers| && 0 <= r < REDUCERS
      ensures Matches(s.files[m], s.mappers[m], s.reducers[r], 0, m, r)
    {
      FinalMatches(s, m, r);
    }
    MatchesIsConsistent(s, 0);
    assert Cut(s, 0) == Ends(s) by {
      forall m | 0 <= m < |s.mappers| ensures s.mappers[m].saved[0].cursor == |s.files[m]| {
        MapperAt(s, m);
        FinalMatches(s, m, 0);
      }
    }
  }

  lemma FinalMatches(s: System, m: nat, r: nat)
    requires Inv(s) && s.c.phase == Exiting && m < |s.mappers| && r < REDUCERS
    ensures Matches(s.files[m], s.mappers[m], s.reducers[r], 0, m, r)
    ensures s.mappers[m].saved[0].cursor == |s.files[m]|
  {
    hide LinkOk, RoundComplete, Items, Sums;
    ChannelAt(s, m, r);
    MapperAt(s, m);
    forall q | 0 <= q < |s.reducers| ensures HasR(s.reducers[q], 0, s.c.epoch) {
      ReducerAt(s, q);
    }
    assert HasM(s.mappers[m], 0, s.c.epoch);
    assert !Unfinished(s.reducers, 0, s.c.epoch);
  }

  // ------------------------------------------------------------ rollback and stability

  /**
   * The rollback id always names a completed checkpoint or the beginning, and it is the last completed one as long as
   * ids have not passed the code's first guess of a million.
   */
  lemma RollbackTarget(s: System, may: set<Kind>)
    requires Reachable(s, may)
    ensures var id := RollbackId(LastCps(s));
      && (id == -1 || Completed(s, id))
      && (s.c.nextCp - 1 <= 1_000_000 ==> id == if s.c.nextCp == 1 then -1 else s.c.nextCp - 1)
  {
    hide Reachable;
    ReachableBase(s, may);
    RollbackIsCompleted(s);
  }

  /** In every run, a recovery command, of whatever epoch, names the beginning or a file that its worker has. */
  lemma RecoveryFindsItsFile(s: System, may: set<Kind>, m: nat, r: nat)
    requires Reachable(s, may) && m < |s.mappers| && r < |s.reducers|
    ensures var l := s.mappers[m].link;
      l.cmds != [] && l.cmds[0].Recover? ==> l.cmds[0].from < 0 || l.cmds[0].from in s.mappers[m].saved
    ensures var l := s.reducers[r].link;
      l.cmds != [] && l.cmds[0].Recover? ==> l.cmds[0].from < 0 || l.cmds[0].from in s.reducers[r].saved
  {
    hide Reachable, LinkBase, Sums, ChannelsBase, Undecided, RoundComplete;
    ReachableBase(s, may);
    MapperBaseAt(s, m);
    ReducerBaseAt(s, r);
    assert s.mappers[m].link.cmds != [] ==> MapperCmdBase(s.mappers[m], 0, s.c);
    assert s.reducers[r].link.cmds != [] ==> ReducerCmdOk(s.reducers[r], 0, s.c);
  }

  /** No worker ever rewrites a completed checkpoint. */
  lemma CompletedIsNeverRewritten(s: System, t: System, step: Step, k: nat, may: set<Kind>)
    requires Reachable(s, may) && RoundCp !in may && s.c.resets && Next(s, t, step) && Completed(s, k)
    ensures |t.mappers| == |s.mappers| && |t.reducers| == |s.reducers| && s.c.nextCp <= t.c.nextCp
    ensures forall m :: 0 <= m < |s.mappers| ==>
      k in s.mappers[m].saved && k in t.mappers[m].saved && t.mappers[m].saved[k] == s.mappers[m].saved[k]
    ensures forall r :: 0 <= r < |s.reducers| ==>
      k in s.reducers[r].saved && k in t.reducers[r].saved && t.reducers[r].saved[k] == s.reducers[r].saved[k]
  {
    hide Reachable, Base, Tidy, NextStep;
    ReachableSound(s, may);
    ReachableBase(s, may);
    CompletedIsWritten(s, k);
    FilesStay(s, t, step, k);
  }

  /** The step changes no checkpoint file except possibly checkpoints other than `k`. */
  ghost predicate SameFiles(s: System, t: System, k: nat) {
    && |t.mappers| == |s.mappers| && |t.reducers| == |s.reducers| && s.c.nextCp <= t.c.nextCp
    && (forall m :: 0 <= m < |s.mappers| && k in s.mappers[m].saved ==>
          k in t.mappers[m].saved && t.mappers[m].saved[k] == s.mappers[m].saved[k])
    && (forall r :: 0 <= r < |s.reducers| && k in s.reducers[r].saved ==>
          k in t.reducers[r].saved && t.reducers[r].saved[k] == s.reducers[r].saved[k])
  }

  lemma FilesStay(s: System, t: System, step: Step, k: nat)
    requires Shape(s) && Tidy(s) && NextStep(s, t, step) && Completed(s, k)
    ensures SameFiles(s, t, k)
  {
    hide *;
    match step
    case MapperCheckpoint(m, reach) => MapperFilesStay(s, t, m, reach, k);
    case Align(r, cp) => ReducerFilesStay(s, t, r, cp, k);
    case HearM(m) => HearingWritesNothing(s, t, step, k);
    case HearR(r) => HearingWritesNothing(s, t, step, k);
    case Rollback => RollbackWritesNothing(s, t, k);
    case _ => TrafficWritesNothing(s, t, step, k);
  }

  lemma MapperFilesStay(s: System, t: System, m: nat, reach: set<nat>, k: nat)
    requires Shape(s) && Tidy(s) && NextStep(s, t, MapperCheckpoint(m, reach)) && Completed(s, k)
    ensures SameFiles(s, t, k)
  {
    hide Tidy;
    MapperWritesAnother(s, m, k);
  }

  lemma ReducerFilesStay(s: System, t: System, r: nat, cp: nat, k: nat)
    requires Shape(s) && Tidy(s) && NextStep(s, t, Align(r, cp)) && Completed(s, k)
    ensures SameFiles(s, t, k)
  {
    hide Tidy;
    ReducerWritesAnother(s, r, cp, k);
  }

  lemma HearingWritesNothing(s: System, t: System, step: Step, k: nat)
    requires Shape(s) && NextStep(s, t, step) && (step.HearM? || step.HearR?)
    ensures SameFiles(s, t, k)
  {
    hide Settled;
    match step
    case HearM(m) => SettledWritesNothing(HearMapper(s, m), k);
    case HearR(r) => SettledWritesNothing(HearReducer(s, r), k);
  }

  lemma RollbackWritesNothing(s: System, t: System, k: nat)
    requires Shape(s) && NextStep(s, t, Rollback)
    ensures SameFiles(s, t, k)
  {
    hide RollbackId, LastCps;
  }

  lemma TrafficWritesNothing(s: System, t: System, step: Step, k: nat)
    requires Shape(s) && NextStep(s, t, step) && !step.MapperCheckpoint? && !step.Align?
    requires !step.HearM? && !step.HearR? && !step.Rollback?
    ensures SameFiles(s, t, k)
  {
  }

  lemma SettledWritesNothing(h: System, k: nat)
    ensures SameFiles(h, Settled(h), k)
  {
  }

  lemma CompletedIsWritten(s: System, k: nat)
    requires Base(s) && Completed(s, k)
    ensures forall m :: 0 <= m < |s.mappers| ==> k in s.mappers[m].saved
    ensures forall r :: 0 <= r < |s.reducers| ==> k in s.reducers[r].saved
  {
    hide LinkBase, Sums, ChannelsBase, Undecided, RoundComplete;
    forall m | 0 <= m < |s.mappers| ensures k in s.mappers[m].saved {
      MapperBaseAt(s, m);
    }
    forall r | 0 <= r < |s.reducers| ensures k in s.reducers[r].saved {
      ReducerBaseAt(s, r);
    }
  }

  lemma MapperWritesAnother(s: System, m: nat, k: nat)
    requires Tidy(s) && Completed(s, k) && m < |s.mappers|
    ensures s.mappers[m].link.cmds != [] && s.mappers[m].link.cmds[0].Checkpoint? ==> s.mappers[m].link.cmds[0].cp != k
  {
    TidyMapper(s, m);
  }

  lemma ReducerWritesAnother(s: System, r: nat, cp: nat, k: nat)
    requires Tidy(s) && Completed(s, k) && r < REDUCERS && Aligned(s, r, cp)
    ensures cp != k
  {
    TidyRow(s, 0, r);
    assert s.channels[0][r][0] == Marker(cp, s.reducers[r].rid);
  }

  // ------------------------------------------------------------ counts in flight

  function Waiting(s: System, r: nat): (w: seq<seq<Item>>)
    requires Shape(s) && r < REDUCERS
    ensures |w| == |s.mappers| && forall m :: 0 <= m < |w| ==> w[m] == InFlight(s.channels[m][r], s.c.epoch)
  {
    seq(|s.mappers|, m requires 0 <= m < |s.mappers| => InFlight(s.channels[m][r], s.c.epoch))
  }

  function Cursors(s: System): (cut: seq<nat>)
    ensures |cut| == |s.mappers| && forall m :: 0 <= m < |cut| ==> cut[m] == s.mappers[m].cursor
  {
    seq(|s.mappers|, m requires 0 <= m < |s.mappers| => s.mappers[m].cursor)
  }

  /** The workers run outside of recovery: none is dead, and none was restarted since the last rollback. */
  ghost predicate Healthy(s: System) {
    && (s.c.phase == Cp || Ending(s.c.phase)) && !s.c.alarm
    && (forall m :: 0 <= m < |s.mappers| ==> s.mappers[m].up)
    && (forall r :: 0 <= r < |s.reducers| ==> s.reducers[r].up)
  }

  /** A worker that is out makes the coordinator roll back. */
  ghost predicate OutAlarms(s: System) {
    !s.c.alarm ==>
      && (forall m :: 0 <= m < |s.mappers| ==> s.mappers[m].stage != Out)
      && (forall r :: 0 <= r < |s.reducers| ==> s.reducers[r].stage != Out)
  }

  lemma NextKeepsAlarm(s: System, t: System, step: Step)
    requires OutAlarms(s) && Next(s, t, step)
    ensures OutAlarms(t)
  {
    hide Settled, RollbackId, LastCps, Reaches, Sent, Aligned, Heard;
    match step
    case HearM(m) => SettledKeepsAlarm(HearMapper(s, m));
    case HearR(r) => SettledKeepsAlarm(HearReducer(s, r));
    case _ =>
  }

  lemma SettledKeepsAlarm(h: System)
    requires OutAlarms(h)
    ensures OutAlarms(Settled(h))
  {
  }

  lemma {:induction false} RunKeepsAlarm(run: seq<System>, steps: seq<Step>, i: nat)
    requires Run(run, steps) && i <= |steps|
    ensures OutAlarms(run[i])
  {
    hide Next, OutAlarms;
    if i == 0 {
      InitAlarm(run[0]);
    } else {
      RunKeepsAlarm(run, steps, i - 1);
      assert Next(run[i - 1], run[i - 1 + 1], steps[i - 1]);
      NextKeepsAlarm(run[i - 1], run[i], steps[i - 1]);
    }
  }

  lemma InitAlarm(s: System)
    requires Init(s)
    ensures OutAlarms(s)
  {
  }

  /**
   * Conservation: while the workers run outside of recovery, what a reducer has counted plus what is on its way to it
   * is what the files before the mappers' cursors contain for it, also right after any number of rollbacks.
   */
  lemma NothingLostOrDoubled(s: System, may: set<Kind>, r: nat, w: string)
    requires Reachable(s, may) && RoundCp !in may && s.c.resets && Healthy(s) && r < REDUCERS
    ensures Shape(s)
    ensures Get(s.reducers[r].wc, w) + TallyAll(Waiting(s, r), w)
         == if Route(w) == r then Occurrences(AllWords(s.files, Cursors(s)), w) else 0
  {
    hide Reachable, AllWords, TallyAll, MapperOk, Channel, LinkOk;
    ReachableSound(s, may);
    AlarmReached(s, may);
    ReducerAt(s, r);
    AllInStep(s, r);
    AllTally(s.files, Cursors(s), Both(s, r), r, w);
    TallyZip(s.reducers[r].seen, Waiting(s, r), Both(s, r), w);
  }

  function Both(s: System, r: nat): (both: seq<seq<Item>>)
    requires Shape(s) && r < REDUCERS
    ensures |both| == |s.mappers|
    ensures forall m :: 0 <= m < |both| ==> both[m] == s.reducers[r].seen[m] + Waiting(s, r)[m]
  {
    seq(|s.mappers|, m requires 0 <= m < |s.mappers| => s.reducers[r].seen[m] + Waiting(s, r)[m])
  }

  lemma AlarmReached(s: System, may: set<Kind>)
    requires Reachable(s, may)
    ensures OutAlarms(s)
  {
    hide Init, Next, OutAlarms, Follows;
    var run, steps :| Run(run, steps) && run[|steps|] == s && Follows(run, steps, Rules(may, true));
    RunKeepsAlarm(run, steps, |steps|);
  }

  lemma AllInStep(s: System, r: nat)
    requires Inv(s) && OutAlarms(s) && Healthy(s) && r < REDUCERS
    ensures Shape(s) && forall m :: 0 <= m < |s.mappers| ==>
      Cursors(s)[m] <= |s.files[m]| && Both(s, r)[m] == Items(s.files[m], r, Cursors(s)[m])
  {
    hide Items, InFlight, MapperOk, ReducerOk, Channel, SoundOrUnfinished, RoundComplete;
    forall m | 0 <= m < |s.mappers|
      ensures Cursors(s)[m] <= |s.files[m]| && Both(s, r)[m] == Items(s.files[m], r, Cursors(s)[m])
    {
      InStep(s, m, r);
    }
  }

  lemma InStep(s: System, m: nat, r: nat)
    requires Inv(s) && OutAlarms(s) && Healthy(s) && m < |s.mappers| && r < REDUCERS
    ensures m < |s.reducers[r].seen| && s.mappers[m].cursor <= |s.files[m]|
    ensures s.reducers[r].seen[m] + InFlight(s.channels[m][r], s.c.epoch) == Items(s.files[m], r, s.mappers[m].cursor)
  {
    hide Items, InFlight, Current, Sums, RoundComplete;
    ChannelAt(s, m, r);
    MapperAt(s, m);
    MapperJoined(s, m);
    forall q | 0 <= q < |s.reducers| ensures s.reducers[q].stage == Joined {
      ReducerJoined(s, q);
    }
  }

  lemma MapperJoined(s: System, m: nat)
    requires Inv(s) && OutAlarms(s) && Healthy(s) && m < |s.mappers|
    ensures s.mappers[m].stage == Joined
  {
    hide Channels, SoundOrUnfinished, RoundComplete, Reducers;
    MapperAt(s, m);
  }

  lemma ReducerJoined(s: System, r: nat)
    requires Inv(s) && OutAlarms(s) && Healthy(s) && r < |s.reducers|
    ensures s.reducers[r].stage == Joined
  {
    hide Channels, SoundOrUnfinished, RoundComplete, Mappers, Sums;
    ReducerAt(s, r);
  }

  lemma {:induction false} TallyZip(x: seq<seq<Item>>, y: seq<seq<Item>>, both: seq<seq<Item>>, w: string)
    requires |x| == |y| == |both| && forall m :: 0 <= m < |x| ==> both[m] == x[m] + y[m]
    ensures TallyAll(both, w) == TallyAll(x, w) + TallyAll(y, w)
  {
    if x != [] {
      var n := |x| - 1;
      TallyZip(x[..n], y[..n], both[..n], w);
      TallyAppend(x[n], y[n], w);
    }
  }

  // ------------------------------------------------------------ what reaches a reducer's dictionary

  /** The count, if any, that the step hands to reducer `r` under the recovery id that the reducer goes by. */
  ghost function Accepted(s: System, step: Step, r: nat): seq<Item>
    requires Shape(s) && r < REDUCERS
  {
    if step.Deliver? && step.r == r && step.m < |s.mappers| && s.channels[step.m][r] != []
       && s.channels[step.m][r][0].Count? && s.channels[step.m][r][0].rid == s.reducers[r].rid
    then [s.channels[step.m][r][0].item] else []
  }

  /** The reducer's state is replaced: it recovers, or a new process takes its place. */
  predicate Replaces(step: Step, r: nat) {
    step == ReducerRecover(r) || step == RestartR(r)
  }

  /**
   * In every state, also with recovery commands waiting and packets of several epochs under way: unless the reducer is
   * replaced, its dictionary changes by exactly the count it is handed under its own recovery id.
   */
  lemma OnlyOwnCounts(s: System, t: System, step: Step, r: nat)
    requires Next(s, t, step) && r < REDUCERS && !Replaces(step, r)
    ensures |t.reducers| == |s.reducers| && t.reducers[r].wc == AddAll(s.reducers[r].wc, Accepted(s, step, r))
    ensures t.reducers[r].rid == s.reducers[r].rid
  {
    hide Settled, RollbackId, LastCps, SendStep, MapperCrashStep, MapperCheckpointStep, MapperRecoverStep, FinishStep;
    hide AskStep, RestartMapperStep;
    assert AddAll(s.reducers[r].wc, []) == s.reducers[r].wc;
    match step
    case Deliver(m, q) =>
      var p := s.channels[m][q][0];
      if p.Count? {
        assert [p.item][..0] == [];
        assert AddAll(s.reducers[r].wc, [p.item]) == Add(s.reducers[r].wc, p.item);
      }
    case Align(q, cp) =>
    case ReducerRecover(q) =>
    case ReducerCrash(q) =>
    case RestartR(q) =>
    case HearM(m) => SettledKeepsCounts(HearMapper(s, m), r);
    case HearR(q) => SettledKeepsCounts(HearReducer(s, q), r);
    case Rollback =>
    case _ => MappersKeepReducers(s, t, step);
  }

  lemma MappersKeepReducers(s: System, t: System, step: Step)
    requires Next(s, t, step)
    requires step.Send? || step.Finish? || step.MapperCheckpoint? || step.MapperRecover? || step.MapperCrash?
      || step.Ask? || step.RestartM?
    ensures t.reducers == s.reducers
  {
  }

  lemma SettledKeepsCounts(h: System, r: nat)
    requires r < |h.reducers|
    ensures |Settled(h).reducers| == |h.reducers| && Settled(h).reducers[r].wc == h.reducers[r].wc
    ensures Settled(h).reducers[r].rid == h.reducers[r].rid
  {
  }

  /** The counts that steps `i` to `j` hand to reducer `r` under its own recovery id. */
  ghost function AcceptedBetween(run: seq<System>, steps: seq<Step>, i: nat, j: nat, r: nat): seq<Item>
    requires i <= j <= |steps| < |run| && r < REDUCERS
    requires forall l :: 0 <= l < |steps| ==> Shape(run[l])
  {
    if i == j then [] else AcceptedBetween(run, steps, i, j - 1, r) + Accepted(run[j - 1], steps[j - 1], r)
  }

  /** The dictionary that the recovery command of `before` restores, plus the counts taken, is that of `after`. */
  ghost predicate RestoredPlus(before: Reducer, after: Reducer, taken: seq<Item>) {
    && before.link.cmds != [] && before.link.cmds[0].Recover?
    && var cmd := before.link.cmds[0];
    var restored := if cmd.from in before.saved then before.saved[cmd.from].wc else map[];
    && after.rid == cmd.rid && after.wc == AddAll(restored, taken)
    && forall w :: Get(after.wc, w) == Get(restored, w) + Tally(taken, w)
  }

  /**
   * From a recovery of a reducer to its next one, whatever else happens: its dictionary is the restored one plus
   * exactly the counts that it was handed under the recovery id it was recovered with.
   */
  lemma BetweenRecoveries(run: seq<System>, steps: seq<Step>, i: nat, j: nat, r: nat)
    requires Run(run, steps) && r < REDUCERS && i < j <= |steps|
    requires steps[i] == ReducerRecover(r) && forall l :: i < l < j ==> !Replaces(steps[l], r)
    ensures (forall l :: 0 <= l < |steps| ==> Shape(run[l])) && |run[j].reducers| == REDUCERS
    ensures RestoredPlus(run[i].reducers[r], run[j].reducers[r], AcceptedBetween(run, steps, i + 1, j, r))
  {
    hide *;
    RunShapes(run, steps);
    RunNext(run, steps, i);
    RecoveryRestores(run[i], run[i + 1], r);
    WhileInPlace(run, steps, i + 1, j, r);
    RestoresAll(run[i].reducers[r], run[i + 1].reducers[r], run[j].reducers[r],
                AcceptedBetween(run, steps, i + 1, j, r));
  }

  lemma RunShapes(run: seq<System>, steps: seq<Step>)
    requires Run(run, steps)
    ensures |run| == |steps| + 1 && forall l :: 0 <= l < |steps| ==> Shape(run[l]) && |run[l].reducers| == REDUCERS
  {
    hide NextStep, Init;
    forall l | 0 <= l < |steps| ensures Shape(run[l]) {
      assert Next(run[l], run[l + 1], steps[l]);
    }
  }

  lemma RunNext(run: seq<System>, steps: seq<Step>, l: nat)
    requires Run(run, steps) && l < |steps|
    ensures Next(run[l], run[l + 1], steps[l])
  {
    hide Next, Init;
  }

  lemma RestoresAll(before: Reducer, restored: Reducer, after: Reducer, taken: seq<Item>)
    requires RestoredPlus(before, restored, [])
    requires after.rid == restored.rid && after.wc == AddAll(restored.wc, taken)
    ensures RestoredPlus(before, after, taken)
  {
    forall w ensures Get(after.wc, w) == Get(restored.wc, w) + Tally(taken, w) {
      AddAllTally(restored.wc, taken, w);
    }
  }

  lemma RecoveryRestores(s: System, t: System, r: nat)
    requires Next(s, t, ReducerRecover(r)) && r < REDUCERS
    ensures |s.reducers| == |t.reducers| == REDUCERS && RestoredPlus(s.reducers[r], t.reducers[r], [])
  {
  }

  lemma {:induction false} WhileInPlace(run: seq<System>, steps: seq<Step>, i: nat, j: nat, r: nat)
    requires Run(run, steps) && r < REDUCERS && i <= j <= |steps|
    requires forall l :: 0 <= l < |steps| ==> Shape(run[l])
    requires |run[i].reducers| == REDUCERS
    requires forall l :: i <= l < j ==> !Replaces(steps[l], r)
    ensures |run[j].reducers| == REDUCERS
    ensures run[j].reducers[r].rid == run[i].reducers[r].rid
    ensures run[j].reducers[r].wc == AddAll(run[i].reducers[r].wc, AcceptedBetween(run, steps, i, j, r))
  {
    hide Init, Next, Shape, Replaces, Accepted;
    if i < j {
      WhileInPlace(run, steps, i, j - 1, r);
      assert Next(run[j - 1], run[j - 1 + 1], steps[j - 1]);
      assert !Replaces(steps[j - 1], r);
      OnlyOwnCounts(run[j - 1], run[j], steps[j - 1], r);
      AddAllAppend(run[i].reducers[r].wc, AcceptedBetween(run, steps, i, j - 1, r),
                   Accepted(run[j - 1], steps[j - 1], r));
    }
  }
}
