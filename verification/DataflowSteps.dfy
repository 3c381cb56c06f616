/** Every step of the checkpointed word count keeps the invariant. */
module DataflowSteps {
  import opened WordCount
  import opened Dataflow
  import opened DataflowInv
  import opened DataflowBase
  import opened DataflowChannels
  import opened DataflowWorkers

  // ------------------------------------------------------------ parts of the invariant

  lemma ChannelAt(s: System, m: nat, r: nat)
    requires Shape(s) && Channels(s) && m < |s.mappers| && r < REDUCERS
    ensures Channel(s.files[m], s.mappers[m], s.reducers[r], s.channels[m][r], m, r, s.c.epoch, s.c.base, s.c.nextCp,
                    Intact(s.reducers))
  {
  }

  lemma MapperAt(s: System, m: nat)
    requires Mappers(s) && m < |s.mappers|
    ensures MapperOk(s.files[m], s.mappers[m], s.c)
  {
  }

  lemma ReducerAt(s: System, r: nat)
    requires Reducers(s) && r < |s.reducers|
    ensures ReducerOk(s.reducers[r], |s.mappers|, s.c)
  {
  }

  /** What the channel lemmas need to know about a mapper. */
  lemma MapperFacts(f: seq<seq<string>>, a: Mapper, c: Coordinator)
    requires MapperOk(f, a, c)
    ensures StageOk(a.stage, a.rid, c.epoch) && a.cursor <= |f|
    ensures forall k :: HasM(a, k, c.epoch) ==> a.stage != Waiting
    ensures forall k :: k in a.saved ==> a.saved[k].epoch <= c.epoch
    ensures c.phase == RecoverReducers ==> a.stage == Waiting
  {
  }

  lemma ReducerFacts(b: Reducer, mappers: nat, c: Coordinator)
    requires ReducerOk(b, mappers, c)
    ensures StageOk(b.stage, b.rid, c.epoch) && |b.seen| == mappers && Sums(b.wc, b.seen)
    ensures forall k :: HasR(b, k, c.epoch) ==> b.stage != Waiting
    ensures forall k :: k in b.saved ==> b.saved[k].epoch <= c.epoch && |b.saved[k].seen| == mappers
  {
  }

  /** A reducer that has not joined the epoch: no mapper has either. */
  lemma ReducersFirst(b: Reducer, mappers: nat, c: Coordinator)
    requires ReducerOk(b, mappers, c)
    ensures b.stage == Waiting ==> c.phase == RecoverReducers
  {
    LinkReached(b.link, b.stage != Waiting, TagsR(b, c.epoch), true, c.epoch, c.nextCp);
  }

  /** Saved checkpoints are as sound as before if no mapper writes and no reducer loses one. */
  lemma SoundKept(s: System, t: System)
    requires SoundOrUnfinished(s)
    requires |t.mappers| == |s.mappers| && |t.reducers| == |s.reducers| && t.c.epoch == s.c.epoch
    requires forall m :: 0 <= m < |s.mappers| ==> t.mappers[m].saved == s.mappers[m].saved
    requires forall r :: 0 <= r < |s.reducers| && Gone(s.reducers[r]) ==>
      Gone(t.reducers[r]) && t.reducers[r].saved == s.reducers[r].saved
    ensures SoundOrUnfinished(t)
  {
    forall m, k | 0 <= m < |t.mappers| && HasM(t.mappers[m], k, t.c.epoch) && !t.mappers[m].saved[k].sound
      ensures Unfinished(t.reducers, k, t.c.epoch)
    {
      assert HasM(s.mappers[m], k, s.c.epoch);
      assert Unfinished(s.reducers, k, s.c.epoch);
      var r :| 0 <= r < |s.reducers| && Gone(s.reducers[r]) && !HasR(s.reducers[r], k, s.c.epoch);
      assert Gone(t.reducers[r]) && !HasR(t.reducers[r], k, t.c.epoch);
    }
  }

  /** The round is as incomplete as before if the coordinator has read nothing. */
  lemma RoundKept(s: System, t: System)
    requires |t.mappers| == |s.mappers| && |t.reducers| == |s.reducers| && t.c.nextCp == s.c.nextCp
    requires forall m :: 0 <= m < |s.mappers| ==> t.mappers[m].link.lastCp == s.mappers[m].link.lastCp
    requires forall r :: 0 <= r < |s.reducers| ==> t.reducers[r].link.lastCp == s.reducers[r].link.lastCp
    ensures RoundComplete(t) == RoundComplete(s)
  {
  }

  lemma IntactKept(before: seq<Reducer>, after: seq<Reducer>)
    requires |before| == |after|
    requires forall r :: 0 <= r < |before| ==> after[r].up == before[r].up && after[r].stage == before[r].stage
    ensures Intact(after) == Intact(before)
  {
  }

  lemma InitInv(s: System)
    requires Init(s) && s.c.resets
    ensures Inv(s)
  {
    hide NoEmptyWords, Channel, MapperOk, ReducerOk;
    assert s.reducers[0].link.lastCp == 0;
    forall m | 0 <= m < |s.mappers| ensures MapperOk(s.files[m], s.mappers[m], s.c) {
      NewMapper(s.files[m], s.mappers[m], s.c);
    }
    forall r | 0 <= r < |s.reducers| ensures ReducerOk(s.reducers[r], |s.mappers|, s.c) {
      NewReducer(s.reducers[r], |s.mappers|, s.c);
    }
    forall m, r | 0 <= m < |s.mappers| && 0 <= r < REDUCERS
      ensures Channel(s.files[m], s.mappers[m], s.reducers[r], s.channels[m][r], m, r, 0, -1, 1, Intact(s.reducers))
    {
      NewChannel(s.files[m], s.mappers[m], s.reducers[r], m, r, |s.mappers|, Intact(s.reducers));
    }
  }

  lemma NewMapper(f: seq<seq<string>>, a: Mapper, c: Coordinator)
    requires a == NEW_MAPPER && c == Coordinator(Cp, 0, 1, false, -1, false, true)
    ensures MapperOk(f, a, c)
  {
  }

  lemma NewReducer(b: Reducer, mappers: nat, c: Coordinator)
    requires b == Reducer(true, map[], NothingSeen(mappers), 0, map[], Joined, NEW_LINK)
    requires c == Coordinator(Cp, 0, 1, false, -1, false, true)
    ensures ReducerOk(b, mappers, c)
  {
    hide Sums;
    EmptySums(mappers);
  }

  lemma NewChannel(f: seq<seq<string>>, a: Mapper, b: Reducer, m: nat, r: nat, mappers: nat, intact: bool)
    requires a == NEW_MAPPER && m < mappers && r < REDUCERS
    requires b == Reducer(true, map[], NothingSeen(mappers), 0, map[], Joined, NEW_LINK)
    ensures Channel(f, a, b, [], m, r, 0, -1, 1, intact)
  {
    assert Items(f, r, 0) == [];
  }

  // ------------------------------------------------------------ mappers

  lemma SendKeepsInv(s: System, t: System, m: nat, upto: seq<nat>, moved: bool)
    requires Inv(s) && SendStep(s, t, m, upto, moved)
    ensures Inv(t)
  {
    hide MapperOk, Channel, ReducerOk, RoundComplete, SoundOrUnfinished;
    var a := s.mappers[m];
    MapperAt(s, m);
    MapperFacts(s.files[m], a, s.c);
    MapperMoves(s.files[m], a, s.c, t.mappers[m].cursor, a.up, a.conns);
    SendKeepsRow(s, t, m, upto, t.mappers[m], t.channels[m]);
    forall n, r | 0 <= n < |t.mappers| && 0 <= r < REDUCERS
      ensures Channel(t.files[n], t.mappers[n], t.reducers[r], t.channels[n][r], n, r, t.c.epoch, t.c.base, t.c.nextCp,
                      Intact(t.reducers))
    {
      ChannelAt(s, n, r);
    }
    SoundKept(s, t);
    RoundKept(s, t);
  }

  /** Sending, completely or until death, keeps the channels of mapper `m`. */
  lemma SendKeepsRow(s: System, t: System, m: nat, upto: seq<nat>, a': Mapper, row: seq<seq<Packet>>)
    requires Inv(s) && m < |s.mappers| && Reaches(s, m, upto) && row == Sent(s, m, upto)
    requires a' == s.mappers[m].(cursor := a'.cursor, up := a'.up) && (a'.up ==> s.mappers[m].up)
    requires a'.cursor <= |s.files[m]|
    requires a'.up && AllOpen(s.mappers[m]) ==> a'.cursor == s.mappers[m].cursor + 1 && Complete(s, m, upto)
    ensures forall r :: 0 <= r < REDUCERS ==>
      Channel(s.files[m], a', s.reducers[r], row[r], m, r, s.c.epoch, s.c.base, s.c.nextCp, Intact(s.reducers))
  {
    hide MapperOk, Channel, ReducerOk, RoundComplete, SoundOrUnfinished, Counter, Share;
    var a := s.mappers[m];
    MapperAt(s, m);
    MapperFacts(s.files[m], a, s.c);
    if a.stage == Joined && a.up && Intact(s.reducers) {
      OpenIfIntact(s, m);
    }
    forall r | 0 <= r < REDUCERS
      ensures Channel(s.files[m], a', s.reducers[r], row[r], m, r, s.c.epoch, s.c.base, s.c.nextCp, Intact(s.reducers))
    {
      ChannelAt(s, m, r);
      SentTo(s, m, upto, r);
      MapperSends(s.files[m], a, a', s.reducers[r], s.channels[m][r], m, r, s.c.epoch, s.c.base, s.c.nextCp,
                  Intact(s.reducers), Part(s, m, upto, r));
    }
  }

  /** A mapper that takes part is connected to all reducers if they all do. */
  lemma OpenIfIntact(s: System, m: nat)
    requires Inv(s) && m < |s.mappers| && s.mappers[m].stage == Joined && s.mappers[m].up && Intact(s.reducers)
    ensures AllOpen(s.mappers[m])
  {
    hide Tagged, MarkersOk, Conserved, Separates, MapperOk, ReducerOk, RoundComplete, SoundOrUnfinished;
    forall r | 0 <= r < REDUCERS ensures s.mappers[m].conns[r] {
      ChannelAt(s, m, r);
    }
  }

  lemma SentTo(s: System, m: nat, upto: seq<nat>, r: nat)
    requires Shape(s) && m < |s.mappers| && Reaches(s, m, upto) && r < REDUCERS
    ensures Sent(s, m, upto)[r]
         == AppendIf(s.channels[m][r], Packets(Part(s, m, upto, r), s.mappers[m].rid), s.mappers[m].conns[r])
    ensures Positive(Part(s, m, upto, r))
    ensures Complete(s, m, upto) ==> Part(s, m, upto, r) == Share(Counter(s.files[m][s.mappers[m].cursor]), r)
  {
    hide Counter, Share, Tally, Occurrences;
    var items := Counter(s.files[m][s.mappers[m].cursor]);
    CounterCounts(s.files[m][s.mappers[m].cursor], "");
    ShareTally(items, r, "");
  }

  lemma MapperCrashKeepsInv(s: System, t: System, m: nat, upto: seq<nat>)
    requires Inv(s) && MapperCrashStep(s, t, m, upto)
    ensures Inv(t)
  {
    hide MapperOk, Channel, ReducerOk, RoundComplete, SoundOrUnfinished;
    var a := s.mappers[m];
    MapperAt(s, m);
    MapperFacts(s.files[m], a, s.c);
    MapperMoves(s.files[m], a, s.c, a.cursor, false, a.conns);
    if Reaches(s, m, upto) {
      SendKeepsRow(s, t, m, upto, t.mappers[m], t.channels[m]);
    } else {
      DeathKeepsRow(s, m);
    }
    forall n, r | 0 <= n < |t.mappers| && 0 <= r < REDUCERS
      ensures Channel(t.files[n], t.mappers[n], t.reducers[r], t.channels[n][r], n, r, t.c.epoch, t.c.base, t.c.nextCp,
                      Intact(t.reducers))
    {
      ChannelAt(s, n, r);
    }
    SoundKept(s, t);
    RoundKept(s, t);
  }

  lemma DeathKeepsRow(s: System, m: nat)
    requires Inv(s) && m < |s.mappers|
    ensures forall r :: 0 <= r < REDUCERS ==>
      Channel(s.files[m], s.mappers[m].(up := false), s.reducers[r], s.channels[m][r], m, r, s.c.epoch, s.c.base,
              s.c.nextCp, Intact(s.reducers))
  {
    hide MapperOk, Channel, ReducerOk, RoundComplete, SoundOrUnfinished;
    var a := s.mappers[m];
    MapperAt(s, m);
    MapperFacts(s.files[m], a, s.c);
    forall r | 0 <= r < REDUCERS
      ensures Channel(s.files[m], a.(up := false), s.reducers[r], s.channels[m][r], m, r, s.c.epoch, s.c.base,
                      s.c.nextCp, Intact(s.reducers))
    {
      ChannelAt(s, m, r);
      MapperSends(s.files[m], a, a.(up := false), s.reducers[r], s.channels[m][r], m, r, s.c.epoch, s.c.base,
                  s.c.nextCp, Intact(s.reducers), []);
      assert s.channels[m][r] + Packets([], a.rid) == s.channels[m][r];
    }
  }

  lemma FinishKeepsInv(s: System, t: System, m: nat)
    requires Inv(s) && FinishStep(s, t, m)
    ensures Inv(t)
  {
    hide MapperOk, Channel, ReducerOk, RoundComplete, SoundOrUnfinished;
    MapperAt(s, m);
    MapperFinishes(s.files[m], s.mappers[m], s.c);
    WiringKept(s, t);
    LinksKeepChannels(s, t);
    SoundKept(s, t);
    RoundKept(s, t);
  }

  /** The wiring allows what the links now hold. */
  ghost predicate AllWired(t: System)
    requires Shape(t)
  {
    forall m, r :: 0 <= m < |t.mappers| && 0 <= r < REDUCERS ==> Wired(t.mappers[m], t.reducers[r], r, t.c.epoch)
  }

  /** Commands that were waiting before do not disturb the wiring. */
  lemma WiringKept(s: System, t: System)
    requires Shape(s) && Shape(t) && Channels(s) && |t.mappers| == |s.mappers| && t.c.epoch == s.c.epoch
    requires forall m :: 0 <= m < |s.mappers| ==> t.mappers[m] == s.mappers[m].(link := t.mappers[m].link)
    requires forall r :: 0 <= r < REDUCERS ==> t.reducers[r] == s.reducers[r].(link := t.reducers[r].link)
    requires forall m, i :: 0 <= m < |s.mappers| && 0 <= i < |t.mappers[m].link.cmds| ==>
      t.mappers[m].link.cmds[i] in s.mappers[m].link.cmds
    ensures AllWired(t)
  {
    hide Tagged, MarkersOk, Conserved, Separates;
    forall m, r | 0 <= m < |t.mappers| && 0 <= r < REDUCERS ensures Wired(t.mappers[m], t.reducers[r], r, t.c.epoch) {
      ChannelAt(s, m, r);
    }
  }

  /** Only links change. */
  lemma LinksKeepChannels(s: System, t: System)
    requires Shape(s) && Shape(t) && Channels(s) && AllWired(t)
    requires t.files == s.files && t.channels == s.channels && |t.mappers| == |s.mappers|
    requires t.c.epoch == s.c.epoch && t.c.base == s.c.base && t.c.nextCp == s.c.nextCp
    requires forall m :: 0 <= m < |s.mappers| ==> t.mappers[m] == s.mappers[m].(link := t.mappers[m].link)
    requires forall r :: 0 <= r < REDUCERS ==> t.reducers[r] == s.reducers[r].(link := t.reducers[r].link)
    ensures Channels(t)
  {
    hide Channel, Wired;
    IntactKept(s.reducers, t.reducers);
    forall m, r | 0 <= m < |t.mappers| && 0 <= r < REDUCERS
      ensures Channel(t.files[m], t.mappers[m], t.reducers[r], t.channels[m][r], m, r, t.c.epoch, t.c.base, t.c.nextCp,
                      Intact(t.reducers))
    {
      ChannelAt(s, m, r);
      LinksOnly(s.files[m], s.mappers[m], t.mappers[m], s.reducers[r], t.reducers[r], s.channels[m][r], m, r, s.c.epoch,
                s.c.base, s.c.nextCp, Intact(s.reducers));
    }
  }

  lemma MapperCheckpointKeepsInv(s: System, t: System, m: nat, reach: set<nat>)
    requires Inv(s) && MapperCheckpointStep(s, t, m, reach) && !Early(s, m)
    ensures Inv(t)
  {
    hide MapperOk, Channel, ReducerOk, RoundComplete, SoundOrUnfinished, Wired;
    MapperAt(s, m);
    var a := s.mappers[m];
    if a.link.cmds[0].rid != a.rid {
      MapperIgnores(s.files[m], a, s.c);
      WiringKept(s, t);
      LinksKeepChannels(s, t);
      SoundKept(s, t);
    } else {
      NotWhileOut(s, m);
      MapperCheckpoints(s.files[m], a, s.c, Intact(s.reducers), 0 in reach && 1 in reach);
      CheckpointKeepsChannels(s, t, m, reach);
      CheckpointKeepsSound(s, t, m, reach);
    }
    RoundKept(s, t);
  }

  /** After the first epoch a mapper that is out is never asked for a checkpoint of its own epoch. */
  lemma NotWhileOut(s: System, m: nat)
    requires Inv(s) && m < |s.mappers|
    requires s.c.epoch == 0 ==> s.mappers[m].stage != Out
    requires var l := s.mappers[m].link; l.cmds != [] && l.cmds[0].Checkpoint? && l.cmds[0].rid == s.mappers[m].rid
    ensures s.mappers[m].stage != Out
  {
    hide Channels, ReducerOk, RoundComplete, SoundOrUnfinished, LinkOk;
    MapperAt(s, m);
    assert MapperCmdOk(s.mappers[m], 0, s.c);
  }

  /** The checkpoint that a mapper is asked for is the current round's or the final one, and new in this epoch. */
  lemma AskedIsNew(f: seq<seq<string>>, a: Mapper, c: Coordinator)
    requires MapperOk(f, a, c) && a.link.cmds != [] && a.link.cmds[0].Checkpoint? && a.link.cmds[0].rid == a.rid
    ensures var k := a.link.cmds[0].cp; (k == 0 || k == c.nextCp) && !HasM(a, k, c.epoch)
  {
    assert MapperCmdOk(a, 0, c);
  }

  lemma CheckpointKeepsChannels(s: System, t: System, m: nat, reach: set<nat>)
    requires Inv(s) && MapperCheckpointStep(s, t, m, reach)
    requires s.mappers[m].link.cmds[0].rid == s.mappers[m].rid && s.mappers[m].stage != Out
    ensures Channels(t)
  {
    hide MapperOk, Channel, ReducerOk, RoundComplete, SoundOrUnfinished;
    var a := s.mappers[m];
    var k := a.link.cmds[0].cp;
    MapperAt(s, m);
    MapperFacts(s.files[m], a, s.c);
    AskedIsNew(s.files[m], a, s.c);
    forall n, r | 0 <= n < |t.mappers| && 0 <= r < REDUCERS
      ensures Channel(t.files[n], t.mappers[n], t.reducers[r], t.channels[n][r], n, r, t.c.epoch, t.c.base, t.c.nextCp,
                      Intact(t.reducers))
    {
      ChannelAt(s, n, r);
      if n == m {
        MapperSaves(s.files[m], a, t.mappers[m], s.reducers[r], s.channels[m][r], m, r, s.c.epoch, s.c.base, s.c.nextCp,
                    Intact(s.reducers), k, r in reach && a.conns[r]);
      }
    }
  }

  /** A checkpoint that no reducer has written yet is sound, or some interrupted reducer has not written it. */
  lemma CheckpointKeepsSound(s: System, t: System, m: nat, reach: set<nat>)
    requires Inv(s) && MapperCheckpointStep(s, t, m, reach)
    requires s.mappers[m].link.cmds[0].rid == s.mappers[m].rid && s.mappers[m].stage != Out
    ensures SoundOrUnfinished(t)
  {
    hide MapperOk, ReducerOk, Tagged, Wired, Conserved, Separates;
    var a := s.mappers[m];
    var k0 := a.link.cmds[0].cp;
    MapperAt(s, m);
    MapperFacts(s.files[m], a, s.c);
    AskedIsNew(s.files[m], a, s.c);
    forall n, k | 0 <= n < |t.mappers| && HasM(t.mappers[n], k, t.c.epoch) && !t.mappers[n].saved[k].sound
      ensures Unfinished(t.reducers, k, t.c.epoch)
    {
      if n == m && k == k0 {
        var r :| 0 <= r < |s.reducers| && !(s.reducers[r].up && s.reducers[r].stage == Joined);
        ReducerAt(s, r);
        ReducersFirst(s.reducers[r], |s.mappers|, s.c);
        assert a.stage == Joined;
        ChannelAt(s, m, r);
        assert HasR(s.reducers[r], k, s.c.epoch) ==> HasM(a, k, s.c.epoch);
        assert Gone(t.reducers[r]) && !HasR(t.reducers[r], k, t.c.epoch);
      } else {
        assert HasM(s.mappers[n], k, s.c.epoch);
        assert Unfinished(s.reducers, k, s.c.epoch);
      }
    }
  }

  lemma MapperRecoverKeepsInv(s: System, t: System, m: nat)
    requires Inv(s) && MapperRecoverStep(s, t, m)
    ensures Inv(t)
  {
    hide MapperOk, Channel, ReducerOk, RoundComplete, SoundOrUnfinished;
    var a := s.mappers[m];
    MapperAt(s, m);
    MapperRecovers(s.files[m], a, s.c, Connected(s.reducers));
    forall n, r | 0 <= n < |t.mappers| && 0 <= r < REDUCERS
      ensures Channel(t.files[n], t.mappers[n], t.reducers[r], t.channels[n][r], n, r, t.c.epoch, t.c.base, t.c.nextCp,
                      Intact(t.reducers))
    {
      ChannelAt(s, n, r);
      if n == m {
        MapperRestores(s.files[m], a, t.mappers[m], s.reducers[r], s.channels[m][r], m, r, s.c.epoch, s.c.base,
                       s.c.nextCp, Intact(s.reducers), a.link.cmds[0].from);
      }
    }
    MapperWithin(t, m);
    SoundKept(s, t);
    RoundKept(s, t);
  }

  lemma RestartMapperKeepsInv(s: System, t: System, m: nat)
    requires Inv(s) && RestartMapperStep(s, t, m)
    ensures Inv(t)
  {
    hide MapperOk, Channel, ReducerOk, RoundComplete, SoundOrUnfinished;
    var a := s.mappers[m];
    MapperAt(s, m);
    MapperFacts(s.files[m], a, s.c);
    MapperRestarted(s.files[m], a, s.c, s.reducers);
    AlarmKeepsWorkers(s, t.(c := s.c), true);
    forall n, r | 0 <= n < |t.mappers| && 0 <= r < REDUCERS
      ensures Channel(t.files[n], t.mappers[n], t.reducers[r], t.channels[n][r], n, r, t.c.epoch, t.c.base, t.c.nextCp,
                      Intact(t.reducers))
    {
      ChannelAt(s, n, r);
      if n == m {
        MapperRestarts(s.files[m], a, t.mappers[m], s.reducers[r], s.channels[m][r], m, r, s.c.epoch, s.c.base,
                       s.c.nextCp, Intact(s.reducers));
      }
    }
    SoundKept(s, t);
    RoundKept(s, t);
  }

  /** The alarm says nothing about workers. */
  lemma AlarmKeepsWorkers(s: System, h: System, alarm: bool)
    requires Mappers(h) && Reducers(h)
    ensures Mappers(h.(c := h.c.(alarm := alarm))) && Reducers(h.(c := h.c.(alarm := alarm)))
  {
    hide LinkOk, Sums;
    var c' := h.c.(alarm := alarm);
    forall m | 0 <= m < |h.mappers| ensures MapperOk(h.files[m], h.mappers[m], c') {
      MapperAt(h, m);
      MapperAlarm(h.files[m], h.mappers[m], h.c, c');
    }
    forall r | 0 <= r < |h.reducers| ensures ReducerOk(h.reducers[r], |h.mappers|, c') {
      ReducerAt(h, r);
      ReducerAlarm(h.reducers[r], |h.mappers|, h.c, c');
    }
  }

  lemma MapperAlarm(f: seq<seq<string>>, a: Mapper, c: Coordinator, c': Coordinator)
    requires MapperOk(f, a, c) && c' == c.(alarm := c'.alarm)
    ensures MapperOk(f, a, c')
  {
    hide LinkOk;
    forall i | 0 <= i < |a.link.cmds| ensures MapperCmdOk(a, i, c') {
      assert MapperCmdOk(a, i, c);
    }
  }

  lemma ReducerAlarm(b: Reducer, mappers: nat, c: Coordinator, c': Coordinator)
    requires ReducerOk(b, mappers, c) && c' == c.(alarm := c'.alarm)
    ensures ReducerOk(b, mappers, c')
  {
    hide LinkOk, Sums;
    forall i | 0 <= i < |b.link.cmds| ensures ReducerCmdOk(b, i, c') {
      assert ReducerCmdOk(b, i, c);
    }
  }

  lemma MapperWithin(t: System, m: nat)
    requires m < |t.mappers| == |t.files| && MapperOk(t.files[m], t.mappers[m], t.c)
    ensures t.mappers[m].cursor <= |t.files[m]|
  {
  }

  // ------------------------------------------------------------ reducers

  lemma DeliverKeepsInv(s: System, t: System, m: nat, r: nat)
    requires Inv(s) && DeliverStep(s, t, m, r)
    ensures Inv(t)
  {
    hide MapperOk, Channel, ReducerOk, Sums, RoundComplete, SoundOrUnfinished;
    var b, p := s.reducers[r], s.channels[m][r][0];
    ReducerAt(s, r);
    ReducerFacts(b, |s.mappers|, s.c);
    HandledSums(s, m, r);
    ReducerSame(b, t.reducers[r], |s.mappers|, s.c);
    IntactKept(s.reducers, t.reducers);
    forall n, q | 0 <= n < |t.mappers| && 0 <= q < REDUCERS
      ensures Channel(t.files[n], t.mappers[n], t.reducers[q], t.channels[n][q], n, q, t.c.epoch, t.c.base, t.c.nextCp,
                      Intact(t.reducers))
    {
      ChannelAt(s, n, q);
      if q == r && n == m {
        ReducerTakes(s.files[m], s.mappers[m], b, s.channels[m][r], m, r, s.c.epoch, s.c.base, s.c.nextCp,
                     Intact(s.reducers));
      } else if q == r {
        ReducerTakesElsewhere(s.files[n], s.mappers[n], b, s.channels[n][r], n, r, s.c.epoch, s.c.base, s.c.nextCp,
                              Intact(s.reducers), m, p);
      }
    }
    SoundKept(s, t);
    RoundKept(s, t);
  }

  lemma HandledSums(s: System, m: nat, r: nat)
    requires Inv(s) && m < |s.mappers| && r < REDUCERS && s.channels[m][r] != []
    ensures m < |s.reducers[r].seen|
    ensures var b' := Handled(s.reducers[r], m, s.channels[m][r][0]);
      |b'.seen| == |s.mappers| && Sums(b'.wc, b'.seen)
  {
    hide Sums, Add;
    var b, p := s.reducers[r], s.channels[m][r][0];
    ChannelAt(s, m, r);
    assert PacketOk(s.channels[m][r][0], s.c.epoch, s.c.nextCp);
    ReducerAt(s, r);
    if p.Count? {
      SumsAdd(b.wc, b.seen, m, p.item);
    }
  }

  lemma AlignKeepsInv(s: System, t: System, r: nat, cp: nat)
    requires Inv(s) && AlignStep(s, t, r, cp)
    ensures Inv(t)
  {
    hide MapperOk, Channel, ReducerOk, Sums, RoundComplete, SoundOrUnfinished;
    var b := s.reducers[r];
    ReducerAt(s, r);
    ReducerFacts(b, |s.mappers|, s.c);
    NeverAlignedWhileOut(s, r, cp);
    ReducerCheckpoints(b, |s.mappers|, s.c, cp);
    IntactKept(s.reducers, t.reducers);
    forall n, q | 0 <= n < |t.mappers| && 0 <= q < REDUCERS
      ensures Channel(t.files[n], t.mappers[n], t.reducers[q], t.channels[n][q], n, q, t.c.epoch, t.c.base, t.c.nextCp,
                      Intact(t.reducers))
    {
      ChannelAt(s, n, q);
      if q == r {
        ReducerSaves(s.files[n], s.mappers[n], b, t.reducers[r], s.channels[n][r], n, r, s.c.epoch, s.c.base,
                     s.c.nextCp, Intact(s.reducers), cp);
      }
    }
    SoundKept(s, t);
    RoundKept(s, t);
  }

  /** No marker of its recovery id reaches a reducer that is out. */
  lemma NeverAlignedWhileOut(s: System, r: nat, cp: nat)
    requires Inv(s) && r < REDUCERS && Aligned(s, r, cp)
    ensures s.reducers[r].stage != Out
  {
    hide MapperOk, MarkersOk, Wired, Conserved, Separates, RoundComplete, SoundOrUnfinished, LinkOk, Sums;
    ReducerAt(s, r);
    ChannelAt(s, 0, r);
    assert s.channels[0][r][0] == Marker(cp, s.reducers[r].rid);
  }

  lemma ReducerRecoverKeepsInv(s: System, t: System, r: nat)
    requires Inv(s) && ReducerRecoverStep(s, t, r)
    ensures Inv(t)
  {
    hide MapperOk, Channel, ReducerOk, Sums, RoundComplete, SoundOrUnfinished;
    var b := s.reducers[r];
    var rid, from := b.link.cmds[0].rid, b.link.cmds[0].from;
    ReducerAt(s, r);
    ReducerFacts(b, |s.mappers|, s.c);
    ReducerRecovers(b, |s.mappers|, s.c);
    ReducerFacts(t.reducers[r], |s.mappers|, s.c);
    assert !Intact(s.reducers);
    forall n, q | 0 <= n < |t.mappers| && 0 <= q < REDUCERS
      ensures Channel(t.files[n], t.mappers[n], t.reducers[q], t.channels[n][q], n, q, t.c.epoch, t.c.base, t.c.nextCp,
                      Intact(t.reducers))
    {
      ChannelAt(s, n, q);
      MapperAt(s, n);
      MapperFacts(s.files[n], s.mappers[n], s.c);
      if q == r {
        ReducerRestores(s.files[n], s.mappers[n], b, rid, from, |s.mappers|, s.channels[n][r], n, r, s.c.epoch,
                        s.c.base, s.c.nextCp, false);
      } else if rid == s.c.epoch {
        WaitingMapper(s.files[n], s.mappers[n], s.reducers[q], s.channels[n][q], n, q, s.c.epoch, s.c.base, s.c.nextCp,
                      false, Intact(t.reducers));
      } else {
        assert !Intact(t.reducers);
      }
    }
    SoundKept(s, t);
    RoundKept(s, t);
  }

  lemma ReducerCrashKeepsInv(s: System, t: System, r: nat)
    requires Inv(s) && ReducerCrashStep(s, t, r)
    ensures Inv(t)
  {
    hide MapperOk, Channel, ReducerOk, Sums, RoundComplete, SoundOrUnfinished;
    var b := s.reducers[r];
    ReducerAt(s, r);
    ReducerFacts(b, |s.mappers|, s.c);
    ReducerSame(b, t.reducers[r], |s.mappers|, s.c);
    assert !t.reducers[r].up;
    forall n | 0 <= n < |t.mappers| ensures MapperOk(t.files[n], t.mappers[n], t.c) {
      MapperAt(s, n);
      MapperFacts(s.files[n], s.mappers[n], s.c);
      MapperMoves(s.files[n], s.mappers[n], s.c, s.mappers[n].cursor, s.mappers[n].up, t.mappers[n].conns);
    }
    forall n, q | 0 <= n < |t.mappers| && 0 <= q < REDUCERS
      ensures Channel(t.files[n], t.mappers[n], t.reducers[q], t.channels[n][q], n, q, t.c.epoch, t.c.base, t.c.nextCp,
                      false)
    {
      CrashKeepsChannel(s, t, r, n, q);
    }
    SoundKept(s, t);
    RoundKept(s, t);
  }

  lemma CrashKeepsChannel(s: System, t: System, r: nat, n: nat, q: nat)
    requires Inv(s) && ReducerCrashStep(s, t, r) && n < |s.mappers| && q < REDUCERS
    ensures Channel(t.files[n], t.mappers[n], t.reducers[q], t.channels[n][q], n, q, t.c.epoch, t.c.base, t.c.nextCp,
                    false)
  {
    hide MapperOk, Tagged, MarkersOk, Conserved, Separates, ReducerOk, Sums, RoundComplete, SoundOrUnfinished;
    ChannelAt(s, n, q);
    ReducerDies(s.files[n], s.mappers[n], t.mappers[n], s.reducers[q], t.reducers[q], s.channels[n][q], n, q, s.c.epoch,
                s.c.base, s.c.nextCp, Intact(s.reducers));
  }

  lemma RestartReducerKeepsInv(s: System, t: System, r: nat)
    requires Inv(s) && RestartReducerStep(s, t, r)
    ensures Inv(t)
  {
    hide MapperOk, Channel, ReducerOk, Sums, RoundComplete, SoundOrUnfinished;
    var b := s.reducers[r];
    ReducerAt(s, r);
    ReducerFacts(b, |s.mappers|, s.c);
    ReducerRestarted(b, |s.mappers|, s.c);
    AlarmKeepsWorkers(s, t.(c := s.c), true);
    assert !Intact(s.reducers) && t.reducers[r].stage != Joined && !Intact(t.reducers);
    forall n, q | 0 <= n < |t.mappers| && 0 <= q < REDUCERS
      ensures Channel(t.files[n], t.mappers[n], t.reducers[q], t.channels[n][q], n, q, t.c.epoch, t.c.base, t.c.nextCp,
                      false)
    {
      ChannelAt(s, n, q);
      if q == r {
        ReducerRestarts(s.files[n], s.mappers[n], b, t.reducers[r], s.channels[n][r], n, r, s.c.epoch, s.c.base,
                        s.c.nextCp, false);
      }
    }
    SoundKept(s, t);
    RoundKept(s, t);
  }

  // ------------------------------------------------------------ the coordinator

  /** A worker that is not known to have recovered: recovery is going on. */
  lemma HearMapperUnsettled(s: System, m: nat)
    requires Inv(s) && m < |s.mappers| && s.mappers[m].link.reports != []
    ensures Unsettled(HearMapper(s, m))
    ensures RoundComplete(HearMapper(s, m)) ==> s.c.phase == Cp
  {
    hide MapperOk, Channel, ReducerOk, SoundOrUnfinished, RoundComplete, Heard, AllWired;
    var h := HearMapper(s, m);
    MapperAt(s, m);
    MapperBehind(s.files[m], s.mappers[m], s.c);
    MapperHeard(s.files[m], s.mappers[m], s.c);
    HeardCommands(s.mappers[m].link, s.c);
    WiringKept(s, h);
    LinksKeepChannels(s, h);
    SoundKept(s, h);
    if s.c.phase != Cp {
      MapperHearsNoRound(s.files[m], s.mappers[m], s.c);
      RoundNotReached(s, h);
    }
  }

  lemma HearReducerUnsettled(s: System, r: nat)
    requires Inv(s) && r < |s.reducers| && s.reducers[r].link.reports != []
    ensures Unsettled(HearReducer(s, r))
    ensures RoundComplete(HearReducer(s, r)) ==> s.c.phase == Cp
  {
    hide MapperOk, Channel, ReducerOk, SoundOrUnfinished, RoundComplete, Heard, AllWired;
    var h := HearReducer(s, r);
    ReducerAt(s, r);
    ReducerBehind(s.reducers[r], |s.mappers|, s.c);
    ReducerHeard(s.reducers[r], |s.mappers|, s.c);
    WiringKept(s, h);
    LinksKeepChannels(s, h);
    SoundKept(s, h);
    if s.c.phase != Cp {
      ReducerHearsNoRound(s.reducers[r], |s.mappers|, s.c);
      RoundNotReached(s, h);
    }
  }

  lemma HeardCommands(l: Link, c: Coordinator)
    requires l.reports != []
    ensures Heard(l, c).cmds == l.cmds
  {
  }

  lemma MapperBehind(f: seq<seq<string>>, a: Mapper, c: Coordinator)
    requires MapperOk(f, a, c)
    ensures a.link.recovered < c.epoch ==> c.phase == RecoverReducers || c.phase == RecoverMappers
  {
  }

  lemma ReducerBehind(b: Reducer, mappers: nat, c: Coordinator)
    requires ReducerOk(b, mappers, c)
    ensures b.link.recovered < c.epoch ==> c.phase == RecoverReducers
  {
  }

  lemma MapperHearsNoRound(f: seq<seq<string>>, a: Mapper, c: Coordinator)
    requires MapperOk(f, a, c) && CoordinatorOk(c) && a.link.reports != [] && c.phase != Cp
    ensures Heard(a.link, c).lastCp == c.nextCp ==> a.link.lastCp == c.nextCp
  {
    MapperBehind(f, a, c);
    LinkHears(a.link, c, a.stage != Waiting, TagsM(a, c.epoch), AtEnd(f, a));
  }

  lemma ReducerHearsNoRound(b: Reducer, mappers: nat, c: Coordinator)
    requires ReducerOk(b, mappers, c) && CoordinatorOk(c) && b.link.reports != [] && c.phase != Cp
    ensures Heard(b.link, c).lastCp == c.nextCp ==> b.link.lastCp == c.nextCp
  {
    LinkHears(b.link, c, b.stage != Waiting, TagsR(b, c.epoch), true);
  }

  lemma RoundNotReached(s: System, h: System)
    requires |h.mappers| == |s.mappers| && |h.reducers| == |s.reducers| && h.c == s.c
    requires forall m :: 0 <= m < |s.mappers| && h.mappers[m].link.lastCp == s.c.nextCp ==>
      s.mappers[m].link.lastCp == s.c.nextCp
    requires forall r :: 0 <= r < |s.reducers| && h.reducers[r].link.lastCp == s.c.nextCp ==>
      s.reducers[r].link.lastCp == s.c.nextCp
    ensures RoundComplete(h) ==> RoundComplete(s)
  {
  }

  /** When the round is complete, every worker has written a sound checkpoint. */
  lemma RoundIsWritten(h: System, m: nat, r: nat)
    requires Unsettled(h) && h.c.phase == Cp && RoundComplete(h) && m < |h.mappers| && r < REDUCERS
    ensures HasR(h.reducers[r], h.c.nextCp, h.c.epoch) && HasM(h.mappers[m], h.c.nextCp, h.c.epoch)
    ensures h.mappers[m].saved[h.c.nextCp].sound
  {
    hide Channel, Current, Sums, MapperCmdOk, ReducerCmdOk;
    var k, e := h.c.nextCp, h.c.epoch;
    assert MapperOk(h.files[m], h.mappers[m], h.c);
    assert k in TagsM(h.mappers[m], e);
    forall q | 0 <= q < REDUCERS ensures HasR(h.reducers[q], k, e) {
      assert ReducerOk(h.reducers[q], |h.mappers|, h.c);
      assert k in TagsR(h.reducers[q], e);
    }
    assert !Unfinished(h.reducers, k, e);
  }

  lemma SettleRound(h: System)
    requires Unsettled(h) && h.c.phase == Cp && RoundComplete(h)
    ensures Inv(Settled(h))
  {
    hide Channel, SoundOrUnfinished, MapperOk, ReducerOk;
    var t := Settled(h);
    forall m | 0 <= m < |t.mappers| ensures MapperOk(t.files[m], t.mappers[m], t.c) {
      MapperAt(h, m);
      MapperNextRound(h.files[m], h.mappers[m], h.c);
    }
    forall r | 0 <= r < |t.reducers| ensures ReducerOk(t.reducers[r], |t.mappers|, t.c) {
      ReducerAt(h, r);
      ReducerNextRound(h.reducers[r], |h.mappers|, h.c);
    }
    forall m, r | 0 <= m < |t.mappers| && 0 <= r < REDUCERS
      ensures Channel(t.files[m], t.mappers[m], t.reducers[r], t.channels[m][r], m, r, t.c.epoch, t.c.base, t.c.nextCp,
                      Intact(t.reducers))
    {
      ChannelAt(h, m, r);
      RoundIsWritten(h, m, r);
      RoundEnds(h.files[m], h.mappers[m], h.reducers[r], h.channels[m][r], m, r, h.c.epoch, h.c.base, h.c.nextCp,
                Intact(h.reducers));
    }
    SoundKept(h, t);
    assert t.reducers[0].link.lastCp != t.c.nextCp;
  }

  /** A command to all mappers, with the change of phase or round that goes with it. */
  lemma CommandKeeps(h: System, cmd: Cmd, c': Coordinator)
    requires Unsettled(h)
    requires c' == h.c.(phase := c'.phase, asked := c'.asked)
    requires
      || (cmd == Checkpoint(h.c.nextCp, h.c.epoch) && h.c.phase == c'.phase == Cp && !h.c.asked && c'.asked)
      || (cmd == Checkpoint(0, h.c.epoch) && h.c.phase == Cp && c'.phase == LastCp && StreamsDone(h)
          && c'.asked == h.c.asked)
      || (cmd == Recover(h.c.epoch, h.c.base) && h.c.phase == RecoverReducers && c'.phase == RecoverMappers
          && ReducersRecovered(h) && c'.asked == h.c.asked)
    ensures Unsettled(h.(c := c', mappers := Commanded(h.mappers, cmd)))
    ensures RoundComplete(h.(c := c', mappers := Commanded(h.mappers, cmd))) == RoundComplete(h)
  {
    hide Channel, SoundOrUnfinished, MapperOk, ReducerOk, RoundComplete, AllWired;
    var t := h.(c := c', mappers := Commanded(h.mappers, cmd));
    forall m | 0 <= m < |t.mappers| ensures MapperOk(t.files[m], t.mappers[m], t.c) {
      MapperAt(h, m);
      MapperCommanded(h.files[m], h.mappers[m], cmd, h.c, c');
    }
    forall r | 0 <= r < |t.reducers| ensures ReducerOk(t.reducers[r], |t.mappers|, t.c) {
      ReducerAt(h, r);
      ReducerPhase(h.reducers[r], |h.mappers|, h.c, c');
    }
    CommandWired(h, t, cmd);
    LinksKeepChannels(h, t);
    SoundKept(h, t);
    RoundKept(h, t);
  }

  /** Checkpoint commands carry the id of the current epoch. */
  lemma CommandWired(h: System, t: System, cmd: Cmd)
    requires Shape(h) && Shape(t) && Channels(h) && t.c.epoch == h.c.epoch && t.reducers == h.reducers
    requires t.mappers == Commanded(h.mappers, cmd) && (cmd.Checkpoint? ==> cmd.rid == h.c.epoch)
    ensures AllWired(t)
  {
    hide Tagged, MarkersOk, Conserved, Separates;
    forall m, r | 0 <= m < |t.mappers| && 0 <= r < REDUCERS ensures Wired(t.mappers[m], t.reducers[r], r, t.c.epoch) {
      ChannelAt(h, m, r);
    }
  }

  lemma PhaseKeeps(h: System, c': Coordinator)
    requires Unsettled(h)
    requires c' == h.c.(phase := c'.phase)
    requires (h.c.phase == RecoverMappers && c'.phase == Cp && MappersRecovered(h))
      || (h.c.phase == LastCp && c'.phase == Exiting && AllFinal(h))
    ensures Unsettled(h.(c := c')) && RoundComplete(h.(c := c')) == RoundComplete(h)
  {
    hide Channel, SoundOrUnfinished, MapperOk, ReducerOk, RoundComplete, AllWired;
    var t := h.(c := c');
    forall m | 0 <= m < |t.mappers| ensures MapperOk(t.files[m], t.mappers[m], t.c) {
      MapperAt(h, m);
      MapperPhase(h.files[m], h.mappers[m], h.c, c');
    }
    forall r | 0 <= r < |t.reducers| ensures ReducerOk(t.reducers[r], |t.mappers|, t.c) {
      ReducerAt(h, r);
      ReducerPhase(h.reducers[r], |h.mappers|, h.c, c');
    }
    WiringKept(h, t);
    LinksKeepChannels(h, t);
    SoundKept(h, t);
    RoundKept(h, t);
  }

  lemma SettleKeeps(h: System)
    requires Unsettled(h) && (RoundComplete(h) ==> h.c.phase == Cp)
    ensures Inv(Settled(h))
  {
    hide Unsettled, RoundComplete;
    match h.c.phase
    case Cp =>
      if RoundComplete(h) {
        SettleRound(h);
      } else if StreamsDone(h) {
        CommandKeeps(h, Checkpoint(0, h.c.epoch), h.c.(phase := LastCp));
      }
    case RecoverReducers =>
      if ReducersRecovered(h) {
        CommandKeeps(h, Recover(h.c.epoch, h.c.base), h.c.(phase := RecoverMappers));
      }
    case RecoverMappers => if MappersRecovered(h) { PhaseKeeps(h, h.c.(phase := Cp)); }
    case LastCp => if AllFinal(h) { PhaseKeeps(h, h.c.(phase := Exiting)); }
    case Exiting =>
  }

  lemma AskKeepsInv(s: System, t: System)
    requires Inv(s) && AskStep(s, t)
    ensures Inv(t)
  {
    hide Unsettled, RoundComplete;
    CommandKeeps(s, Checkpoint(s.c.nextCp, s.c.epoch), s.c.(asked := true));
  }

  // ------------------------------------------------------------ rollback

  /**
   * Nothing is under way about another checkpoint than the current round's or the final one, and the completed ones are
   * consistent. This is all that a new epoch needs of the old one.
   */
  ghost predicate Tidy(s: System) {
    && Shape(s)
    && (forall m :: 0 <= m < |s.mappers| ==> TidyCmds(s.mappers[m], s.c.nextCp))
    && (forall m, r :: 0 <= m < |s.mappers| && 0 <= r < REDUCERS ==> TidyChannel(s.channels[m][r], s.c.nextCp))
    && (forall m, r :: 0 <= m < |s.mappers| && 0 <= r < REDUCERS ==>
          AllMatch(s.files[m], s.mappers[m], s.reducers[r], m, r, s.c.nextCp))
  }

  ghost predicate TidyChannel(c: seq<Packet>, next: nat) {
    forall i :: 0 <= i < |c| && c[i].Marker? ==> c[i].cp == 0 || c[i].cp == next
  }

  ghost predicate AllMatch(f: seq<seq<string>>, a: Mapper, b: Reducer, m: nat, r: nat, next: nat) {
    forall k :: 1 <= k < next ==> Matches(f, a, b, k, m, r)
  }

  lemma InvIsTidy(s: System)
    requires Inv(s)
    ensures Tidy(s) && s.c.resets
  {
    hide Channel, MapperOk, ReducerOk, RoundComplete, SoundOrUnfinished, TidyCmds, TidyChannel, AllMatch;
    forall m | 0 <= m < |s.mappers| ensures TidyCmds(s.mappers[m], s.c.nextCp) {
      MapperAt(s, m);
      CmdsTidy(s.files[m], s.mappers[m], s.c);
    }
    forall m, r | 0 <= m < |s.mappers| && 0 <= r < REDUCERS ensures TidyChannel(s.channels[m][r], s.c.nextCp) {
      ChannelAt(s, m, r);
      ChannelTidy(s.files[m], s.mappers[m], s.reducers[r], s.channels[m][r], m, r, s.c.epoch, s.c.base, s.c.nextCp,
                  Intact(s.reducers));
    }
    forall m, r | 0 <= m < |s.mappers| && 0 <= r < REDUCERS
      ensures AllMatch(s.files[m], s.mappers[m], s.reducers[r], m, r, s.c.nextCp)
    {
      ChannelAt(s, m, r);
      ChannelTidy(s.files[m], s.mappers[m], s.reducers[r], s.channels[m][r], m, r, s.c.epoch, s.c.base, s.c.nextCp,
                  Intact(s.reducers));
    }
  }

  lemma CmdsTidy(f: seq<seq<string>>, a: Mapper, c: Coordinator)
    requires MapperOk(f, a, c)
    ensures TidyCmds(a, c.nextCp)
  {
    hide LinkOk;
    forall i | 0 <= i < |a.link.cmds| && a.link.cmds[i].Checkpoint?
      ensures a.link.cmds[i].cp == 0 || a.link.cmds[i].cp == c.nextCp
    {
      assert MapperCmdOk(a, i, c);
    }
  }

  lemma ChannelTidy(f: seq<seq<string>>, a: Mapper, b: Reducer, c: seq<Packet>, m: nat, r: nat, e: nat, base: int,
                    next: nat, intact: bool)
    requires Channel(f, a, b, c, m, r, e, base, next, intact)
    ensures TidyChannel(c, next) && AllMatch(f, a, b, m, r, next)
  {
    hide Wired, MarkersOk, Conserved, Separates, Matches;
    assert forall i :: 0 <= i < |c| ==> PacketOk(c[i], e, next);
  }

  /** A rollback starts an epoch in which the invariant holds, whatever else was wrong before. */
  lemma RollbackStartsInv(s: System, t: System)
    requires Base(s) && Tidy(s) && s.c.resets && RollbackStep(s, t)
    ensures Inv(t)
  {
    hide RollsBack, Base, Tidy, Unsettled, RoundComplete, RollbackId, LastCps;
    RollbackIsCompleted(s);
    RollsBackStartsInv(s, t, RollbackId(LastCps(s)));
  }

  lemma RollsBackStartsInv(s: System, t: System, base: int)
    requires Base(s) && Tidy(s) && s.c.resets && RollsBack(s, t, base) && FromOk(base, s.c.nextCp)
    requires Min(s.c.nextCp - 1, FIRST_GUESS) <= RestoredId(base)
    ensures Inv(t)
  {
    hide MapperOk, ReducerOk, Channel, RoundComplete, SoundOrUnfinished, MapperBase, ReducerBase, ChannelBase;
    hide Undecided, TidyCmds, TidyChannel, AllMatch;
    forall m | 0 <= m < |t.mappers| ensures MapperOk(t.files[m], t.mappers[m], t.c) {
      MapperBaseAt(s, m);
      MapperNewEpoch(s.files[m], s.mappers[m], s.c, t.c);
    }
    forall r | 0 <= r < |t.reducers| ensures ReducerOk(t.reducers[r], |t.mappers|, t.c) {
      ReducerBaseAt(s, r);
      ReducerNewEpoch(s.reducers[r], |s.mappers|, s.c, t.c);
    }
    assert !Intact(t.reducers) by {
      assert t.reducers[0].stage == Waiting;
    }
    forall m, r | 0 <= m < |t.mappers| && 0 <= r < REDUCERS
      ensures Channel(t.files[m], t.mappers[m], t.reducers[r], t.channels[m][r], m, r, t.c.epoch, t.c.base, t.c.nextCp,
                      false)
    {
      RollsBackStartsChannel(s, t, base, m, r);
    }
    RollsBackStartsSound(s, t, base);
    RoundKept(s, t);
  }

  lemma RollsBackStartsChannel(s: System, t: System, base: int, m: nat, r: nat)
    requires Base(s) && Tidy(s) && RollsBack(s, t, base) && Shape(t) && m < |s.mappers| && r < REDUCERS
    ensures Channel(t.files[m], t.mappers[m], t.reducers[r], t.channels[m][r], m, r, t.c.epoch, t.c.base, t.c.nextCp,
                    false)
  {
    hide Channel, LinkBase, Sums, Matches, RoundComplete, Undecided;
    ChannelBaseAt(s, m, r);
    MapperBaseAt(s, m);
    ReducerBaseAt(s, r);
    assert AllMatch(s.files[m], s.mappers[m], s.reducers[r], m, r, s.c.nextCp);
    assert TidyChannel(s.channels[m][r], s.c.nextCp);
    forall i | 0 <= i < |s.channels[m][r]| ensures PacketOk(s.channels[m][r][i], s.c.epoch, s.c.nextCp) {
      assert PacketBase(s.channels[m][r][i], s.c);
    }
    EpochBegins(t.files[m], s.mappers[m], t.mappers[m], s.reducers[r], t.reducers[r], t.channels[m][r], m, r, s.c.epoch,
                s.c.nextCp, t.c.base);
  }

  lemma RollsBackStartsSound(s: System, t: System, base: int)
    requires Base(s) && RollsBack(s, t, base)
    ensures SoundOrUnfinished(t)
  {
    hide LinkBase, ReducerBase, ChannelBase, RoundComplete, Undecided;
    forall m, k: nat | 0 <= m < |t.mappers| ensures !HasM(t.mappers[m], k, t.c.epoch) {
      MapperBaseAt(s, m);
    }
  }

  // ------------------------------------------------------------ runs

  /** No checkpoint of a mapper that was restarted in the first epoch. */
  predicate Held(rules: Rules) {
    RoundCp !in rules.may && FinalCp !in rules.may
  }

  lemma NextKeepsInv(s: System, t: System, step: Step, rules: Rules)
    requires Inv(s) && Base(s) && Next(s, t, step) && Allowed(s, step, rules) && Held(rules)
    ensures Inv(t)
  {
    hide Inv, Base, NextStep, Allowed;
    StepKeepsInv(s, t, step, rules);
  }

  lemma StepKeepsInv(s: System, t: System, step: Step, rules: Rules)
    requires Shape(s) && Inv(s) && Base(s) && NextStep(s, t, step) && Allowed(s, step, rules) && Held(rules)
    ensures Inv(t)
  {
    hide Unsettled, RoundComplete, Base, Tidy;
    match step
    case Send(m, upto, moved) => SendKeepsInv(s, t, m, upto, moved);
    case Finish(m) => FinishKeepsInv(s, t, m);
    case MapperCheckpoint(m, reach) => MapperCheckpointKeepsInv(s, t, m, reach);
    case MapperRecover(m) => MapperRecoverKeepsInv(s, t, m);
    case Deliver(m, r) => DeliverKeepsInv(s, t, m, r);
    case Align(r, cp) => AlignKeepsInv(s, t, r, cp);
    case ReducerRecover(r) => ReducerRecoverKeepsInv(s, t, r);
    case MapperCrash(m, upto) => MapperCrashKeepsInv(s, t, m, upto);
    case ReducerCrash(r) => ReducerCrashKeepsInv(s, t, r);
    case HearM(m) =>
      HearMapperUnsettled(s, m);
      SettleKeeps(HearMapper(s, m));
    case HearR(r) =>
      HearReducerUnsettled(s, r);
      SettleKeeps(HearReducer(s, r));
    case Ask => AskKeepsInv(s, t);
    case RestartM(m) => RestartMapperKeepsInv(s, t, m);
    case RestartR(r) => RestartReducerKeepsInv(s, t, r);
    case Rollback =>
      InvIsTidy(s);
      RollbackStartsInv(s, t);
  }

  /** The choice that the documents leave open stays the same along a run. */
  lemma ResetsKept(s: System, t: System, step: Step)
    requires Next(s, t, step)
    ensures t.c.resets == s.c.resets && t.files == s.files
  {
    hide Settled, Reaches, Sent, Aligned, RollbackId, LastCps, Heard;
    match step
    case HearM(m) => SettledKeepsChoice(HearMapper(s, m));
    case HearR(r) => SettledKeepsChoice(HearReducer(s, r));
    case _ =>
  }

  lemma SettledKeepsChoice(h: System)
    ensures Settled(h).c.resets == h.c.resets && Settled(h).files == h.files
  {
  }

  lemma {:induction false} RunKeepsInv(run: seq<System>, steps: seq<Step>, rules: Rules, i: nat)
    requires Run(run, steps) && Follows(run, steps, rules) && Held(rules) && i <= |steps| && run[|steps|].c.resets
    ensures Inv(run[i])
  {
    hide Inv, Base, Init, Next, Allowed, Held;
    if i == 0 {
      RunResets(run, steps, 0);
      InitInv(run[0]);
    } else {
      RunKeepsInv(run, steps, rules, i - 1);
      assert Next(run[i - 1], run[i - 1 + 1], steps[i - 1]) && Allowed(run[i - 1], steps[i - 1], rules);
      RunKeepsBase(run, steps, i - 1);
      NextKeepsInv(run[i - 1], run[i], steps[i - 1], rules);
    }
  }

  lemma {:induction false} RunResets(run: seq<System>, steps: seq<Step>, i: nat)
    requires Run(run, steps) && i <= |steps|
    ensures run[i].c.resets == run[|steps|].c.resets && run[i].files == run[|steps|].files
    decreases |steps| - i
  {
    hide Init, Next;
    if i < |steps| {
      assert Next(run[i], run[i + 1], steps[i]);
      ResetsKept(run[i], run[i + 1], steps[i]);
      RunResets(run, steps, i + 1);
    }
  }

  lemma ReachableInv(s: System, may: set<Kind>)
    requires Reachable(s, may) && RoundCp !in may && FinalCp !in may && s.c.resets
    ensures Inv(s)
  {
    hide Init, Next, Inv, Allowed;
    var run, steps :| Run(run, steps) && run[|steps|] == s && Follows(run, steps, Rules(may, true));
    RunKeepsInv(run, steps, Rules(may, true), |steps|);
  }
}
