/**
 * When a mapper that was restarted in the first epoch takes the final checkpoint, the final counts may be wrong, but
 * the completed checkpoints stay consistent and a rollback repairs everything.
 */
module DataflowLate {
  import opened WordCount
  import opened Dataflow
  import opened DataflowInv
  import opened DataflowBase
  import opened DataflowWorkers
  import opened DataflowSteps

  /** In the first epoch, with mapper `m` restarted, when only the final checkpoint is left to take. */
  ghost predicate Late(s: System, m: nat) {
    Tidy(s) && s.c.resets && Early(s, m) && Ending(s.c.phase)
  }

  // ------------------------------------------------------------ what stays tidy

  ghost predicate MapperKeeps(a: Mapper, a': Mapper, next: nat) {
    forall k :: 1 <= k < next && k in a.saved ==> k in a'.saved && a'.saved[k] == a.saved[k]
  }

  ghost predicate ReducerKeeps(b: Reducer, b': Reducer, next: nat) {
    forall k :: 1 <= k < next && k in b.saved ==> k in b'.saved && b'.saved[k] == b.saved[k]
  }

  lemma TidyKept(s: System, t: System)
    requires Tidy(s) && Shape(t) && t.files == s.files && t.c.nextCp == s.c.nextCp
    requires forall m :: 0 <= m < |t.mappers| ==> TidyCmds(t.mappers[m], t.c.nextCp)
    requires forall m, r :: 0 <= m < |t.mappers| && 0 <= r < REDUCERS ==> TidyChannel(t.channels[m][r], t.c.nextCp)
    requires forall m :: 0 <= m < |s.mappers| ==> MapperKeeps(s.mappers[m], t.mappers[m], s.c.nextCp)
    requires forall r :: 0 <= r < REDUCERS ==> ReducerKeeps(s.reducers[r], t.reducers[r], s.c.nextCp)
    ensures Tidy(t)
  {
    hide TidyCmds, TidyChannel, MapperKeeps, ReducerKeeps, AllMatch;
    forall m, r | 0 <= m < |t.mappers| && 0 <= r < REDUCERS
      ensures AllMatch(t.files[m], t.mappers[m], t.reducers[r], m, r, t.c.nextCp)
    {
      assert AllMatch(s.files[m], s.mappers[m], s.reducers[r], m, r, s.c.nextCp);
      MatchKept(s.files[m], s.mappers[m], t.mappers[m], s.reducers[r], t.reducers[r], m, r, s.c.nextCp);
    }
  }

  lemma MatchKept(f: seq<seq<string>>, a: Mapper, a': Mapper, b: Reducer, b': Reducer, m: nat, r: nat, next: nat)
    requires AllMatch(f, a, b, m, r, next) && MapperKeeps(a, a', next) && ReducerKeeps(b, b', next)
    ensures AllMatch(f, a', b', m, r, next)
  {
    hide Covers;
    forall k | 1 <= k < next ensures Matches(f, a', b', k, m, r) {
      assert Matches(f, a, b, k, m, r);
    }
  }

  lemma TidyMapper(s: System, m: nat)
    requires Tidy(s) && m < |s.mappers|
    ensures TidyCmds(s.mappers[m], s.c.nextCp)
  {
  }

  lemma TidyRow(s: System, m: nat, r: nat)
    requires Tidy(s) && m < |s.mappers| && r < REDUCERS
    ensures TidyChannel(s.channels[m][r], s.c.nextCp)
  {
  }

  // ------------------------------------------------------------ steps

  lemma SendKeepsTidy(s: System, t: System, step: Step)
    requires Tidy(s) && Shape(t) && NextStep(s, t, step) && (step.Send? || step.MapperCrash?)
    ensures Tidy(t) && t.c == s.c
  {
    hide TidyChannel, AllMatch, Counter, Share;
    forall m | 0 <= m < |t.mappers| ensures TidyCmds(t.mappers[m], t.c.nextCp) {
      TidyMapper(s, m);
    }
    forall m, r | 0 <= m < |t.mappers| && 0 <= r < REDUCERS ensures TidyChannel(t.channels[m][r], t.c.nextCp) {
      TidyRow(s, m, r);
      if m == step.m && Reaches(s, m, step.upto) {
        CountsTidy(s.channels[m][r], Part(s, m, step.upto, r), s.mappers[m].rid, s.c.nextCp);
      }
    }
    TidyKept(s, t);
  }

  lemma CountsTidy(c: seq<Packet>, items: seq<Item>, rid: nat, next: nat)
    requires TidyChannel(c, next)
    ensures TidyChannel(c + Packets(items, rid), next)
  {
  }

  lemma CheckpointKeepsTidy(s: System, t: System, m: nat, reach: set<nat>)
    requires Tidy(s) && Shape(t) && MapperCheckpointStep(s, t, m, reach)
    ensures Tidy(t) && t.c == s.c
  {
    hide AllMatch, Intact;
    TidyMapper(s, m);
    var cmds := s.mappers[m].link.cmds;
    assert cmds[0].cp == 0 || cmds[0].cp == s.c.nextCp;
    forall n | 0 <= n < |t.mappers| ensures TidyCmds(t.mappers[n], t.c.nextCp) {
      TidyMapper(s, n);
    }
    forall n, r | 0 <= n < |t.mappers| && 0 <= r < REDUCERS ensures TidyChannel(t.channels[n][r], t.c.nextCp) {
      TidyRow(s, n, r);
    }
    TidyKept(s, t);
  }

  lemma AlignKeepsTidy(s: System, t: System, r: nat, cp: nat)
    requires Tidy(s) && Shape(t) && AlignStep(s, t, r, cp)
    ensures Tidy(t) && t.c == s.c
  {
    hide AllMatch;
    TidyRow(s, 0, r);
    assert s.channels[0][r][0] == Marker(cp, s.reducers[r].rid);
    forall m | 0 <= m < |t.mappers| ensures TidyCmds(t.mappers[m], t.c.nextCp) {
      TidyMapper(s, m);
    }
    forall m, q | 0 <= m < |t.mappers| && 0 <= q < REDUCERS ensures TidyChannel(t.channels[m][q], t.c.nextCp) {
      TidyRow(s, m, q);
    }
    TidyKept(s, t);
  }

  /** Steps that write no file, send no marker and give no command. */
  lemma OthersKeepTidy(s: System, t: System)
    requires Tidy(s) && Shape(t) && t.files == s.files && t.c.nextCp == s.c.nextCp
    requires forall m :: 0 <= m < |s.mappers| ==>
      && t.mappers[m].saved == s.mappers[m].saved
      && forall i :: 0 <= i < |t.mappers[m].link.cmds| ==> t.mappers[m].link.cmds[i] in s.mappers[m].link.cmds
    requires forall r :: 0 <= r < REDUCERS ==> t.reducers[r].saved == s.reducers[r].saved
    requires forall m, r, i :: 0 <= m < |s.mappers| && 0 <= r < REDUCERS && 0 <= i < |t.channels[m][r]| ==>
      t.channels[m][r][i] in s.channels[m][r]
    ensures Tidy(t)
  {
    hide AllMatch;
    forall m | 0 <= m < |t.mappers| ensures TidyCmds(t.mappers[m], t.c.nextCp) {
      TidyMapper(s, m);
    }
    forall m, r | 0 <= m < |t.mappers| && 0 <= r < REDUCERS ensures TidyChannel(t.channels[m][r], t.c.nextCp) {
      TidyRow(s, m, r);
    }
    TidyKept(s, t);
  }

  lemma HearingKeepsLate(s: System, h: System, e: nat)
    requires Late(s, e) && Shape(h) && h.files == s.files && h.c == s.c && h.channels == s.channels
    requires forall m :: 0 <= m < |s.mappers| ==>
      h.mappers[m] == s.mappers[m].(link := h.mappers[m].link) && h.mappers[m].link.cmds == s.mappers[m].link.cmds
    requires forall r :: 0 <= r < REDUCERS ==> h.reducers[r].saved == s.reducers[r].saved
    ensures Late(Settled(h), e)
  {
    hide Tidy;
    var t := Settled(h);
    assert t == h.(c := t.c) && t.c.nextCp == s.c.nextCp;
    TidyShape(s);
    OthersKeepTidy(s, t);
  }

  lemma TidyShape(s: System)
    requires Tidy(s)
    ensures Shape(s)
  {
  }

  /** In the first epoch nobody recovers. */
  lemma NoRecovery(s: System, m: nat, r: nat)
    requires Base(s) && s.c.epoch == 0
    ensures m < |s.mappers| && s.mappers[m].link.cmds != [] ==> s.mappers[m].link.cmds[0].Checkpoint?
    ensures r < |s.reducers| ==> s.reducers[r].link.cmds == []
  {
    hide LinkBase, Sums, ChannelsBase, RoundComplete, Undecided;
    if m < |s.mappers| {
      MapperBaseAt(s, m);
      assert s.mappers[m].link.cmds != [] ==> MapperCmdBase(s.mappers[m], 0, s.c);
    }
    if r < |s.reducers| {
      ReducerBaseAt(s, r);
      assert s.reducers[r].link.cmds != [] ==> ReducerCmdOk(s.reducers[r], 0, s.c);
    }
  }

  /** A restarted mapper is one until the rollback. */
  lemma EarlyKept(s: System, t: System, step: Step, m: nat)
    requires Base(s) && Shape(s) && Early(s, m) && NextStep(s, t, step)
    requires !step.Rollback? && !step.HearM? && !step.HearR?
    ensures Early(t, m)
  {
    hide Base, Reaches, Sent, Aligned;
    match step
    case MapperRecover(n) => NoRecovery(s, n, 0);
    case ReducerRecover(r) => NoRecovery(s, 0, r);
    case _ =>
  }

  lemma LateKept(s: System, t: System, step: Step, e: nat)
    requires Base(s) && Shape(t) && Late(s, e) && NextStep(s, t, step)
    ensures Late(t, e) || Inv(t)
  {
    hide Base, Tidy, Inv, Settled, RollbackId, LastCps, Reaches, Sent, Aligned;
    TidyShape(s);
    match step
    case HearM(m) =>
      HeardCmds(s.mappers[m].link, s.c);
      HearingKeepsLate(s, HearMapper(s, m), e);
    case HearR(r) => HearingKeepsLate(s, HearReducer(s, r), e);
    case Rollback => RollbackStartsInv(s, t);
    case _ =>
      EarlyKept(s, t, step, e);
      WorkKeepsTidy(s, t, step);
  }

  /** Steps of workers, crashes and restarts. */
  lemma WorkKeepsTidy(s: System, t: System, step: Step)
    requires Base(s) && Shape(s) && Shape(t) && Tidy(s) && NextStep(s, t, step)
    requires s.c.epoch == 0 && Ending(s.c.phase) && !step.Rollback? && !step.HearM? && !step.HearR?
    ensures Tidy(t) && t.c == s.c.(alarm := t.c.alarm)
  {
    hide Base, Tidy, SendStep, MapperCrashStep, MapperCheckpointStep, AlignStep;
    match step
    case Send(m, upto, moved) => SendKeepsTidy(s, t, step);
    case Finish(m) => OthersKeepTidy(s, t);
    case MapperCheckpoint(m, reach) => CheckpointKeepsTidy(s, t, m, reach);
    case MapperRecover(m) => NoRecovery(s, m, 0);
    case Deliver(m, r) => OthersKeepTidy(s, t);
    case Align(r, cp) => AlignKeepsTidy(s, t, r, cp);
    case ReducerRecover(r) => NoRecovery(s, 0, r);
    case MapperCrash(m, upto) => SendKeepsTidy(s, t, step);
    case ReducerCrash(r) => OthersKeepTidy(s, t);
    case Ask =>
    case RestartM(m) => OthersKeepTidy(s, t);
    case RestartR(r) => OthersKeepTidy(s, t);
  }

  // ------------------------------------------------------------ runs without early checkpoints of a round

  ghost predicate Sound(s: System) {
    Inv(s) || exists m :: Late(s, m)
  }

  /** A restarted mapper that is asked for the final checkpoint: nothing but this checkpoint is left to take. */
  lemma AskedIsLate(s: System, m: nat)
    requires Inv(s) && Early(s, m) && s.mappers[m].link.cmds != [] && s.mappers[m].link.cmds[0].Checkpoint?
    requires s.mappers[m].link.cmds[0].cp == 0
    ensures Late(s, m)
  {
    hide Channels, SoundOrUnfinished, RoundComplete, Reducers, LinkOk, Tidy;
    InvIsTidy(s);
    MapperAt(s, m);
    assert MapperCmdOk(s.mappers[m], 0, s.c);
  }

  lemma NextKeepsSound(s: System, t: System, step: Step, rules: Rules)
    requires Sound(s) && Base(s) && Shape(t) && Next(s, t, step) && Allowed(s, step, rules) && RoundCp !in rules.may
    ensures Sound(t)
  {
    hide Inv, Base, Late, NextStep;
    if !Inv(s) {
      var m :| Late(s, m);
      LateKept(s, t, step, m);
    } else if step.MapperCheckpoint? && Early(s, step.m) {
      CheckpointAsked(s, t, step);
      AskedIsLate(s, step.m);
      LateKept(s, t, step, step.m);
    } else {
      NextKeepsInv(s, t, step, Rules(rules.may - {FinalCp}, rules.crashes));
    }
  }

  lemma CheckpointAsked(s: System, t: System, step: Step)
    requires Shape(s) && NextStep(s, t, step) && step.MapperCheckpoint?
    ensures step.m < |s.mappers| && s.mappers[step.m].link.cmds != [] && s.mappers[step.m].link.cmds[0].Checkpoint?
  {
  }

  lemma {:induction false} RunKeepsSound(run: seq<System>, steps: seq<Step>, rules: Rules, i: nat)
    requires Run(run, steps) && Follows(run, steps, rules) && RoundCp !in rules.may && i <= |steps|
    requires run[|steps|].c.resets
    ensures Sound(run[i])
  {
    hide Sound, Base, Init, Next, Allowed;
    if i == 0 {
      RunResets(run, steps, 0);
      InitSound(run[0]);
    } else {
      RunKeepsSound(run, steps, rules, i - 1);
      RunKeepsBase(run, steps, i - 1);
      RunKeepsBase(run, steps, i);
      BaseShape(run[i]);
      assert Next(run[i - 1], run[i - 1 + 1], steps[i - 1]) && Allowed(run[i - 1], steps[i - 1], rules);
      NextKeepsSound(run[i - 1], run[i], steps[i - 1], rules);
    }
  }

  lemma InitSound(s: System)
    requires Init(s) && s.c.resets
    ensures Sound(s)
  {
    hide Init, Inv, Late;
    InitInv(s);
  }

  lemma BaseShape(s: System)
    requires Base(s)
    ensures Shape(s)
  {
  }

  lemma ReachableSound(s: System, may: set<Kind>)
    requires Reachable(s, may) && RoundCp !in may && s.c.resets
    ensures Sound(s) && Tidy(s)
  {
    hide Init, Next, Tidy, Allowed, Inv;
    var run, steps :| Run(run, steps) && run[|steps|] == s && Follows(run, steps, Rules(may, true));
    RunKeepsSound(run, steps, Rules(may, true), |steps|);
    if Inv(s) {
      InvIsTidy(s);
    }
  }
}
