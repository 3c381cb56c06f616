/** Building blocks of runs: from a state in which all workers rest, whole phases of the protocol at once. */
module DataflowRuns {
  import opened WordCount
  import opened Dataflow
  import opened DataflowTheorems

  // ------------------------------------------------------------ paths

  ghost predicate Path(run: seq<System>, steps: seq<Step>, rules: Rules) {
    && |run| == |steps| + 1
    && (forall i {:trigger steps[i]} :: 0 <= i < |steps| ==> Next(run[i], run[i + 1], steps[i]))
    && Follows(run, steps, rules)
  }

  /** Some sequence of steps that follows the rules leads from `s` to `t`. */
  ghost predicate Leads(s: System, t: System, rules: Rules) {
    exists run, steps :: Path(run, steps, rules) && run[0] == s && run[|steps|] == t
  }

  lemma Stay(s: System, rules: Rules)
    ensures Leads(s, s, rules)
  {
    var steps: seq<Step> := [];
    assert Path([s], steps, rules) && [s][|steps|] == s;
  }

  lemma Extend(o: System, s: System, t: System, step: Step, rules: Rules)
    requires Leads(o, s, rules) && Next(s, t, step) && Allowed(s, step, rules)
    ensures Leads(o, t, rules)
  {
    hide Next, Allowed, Follows;
    var run, steps :| Path(run, steps, rules) && run[0] == o && run[|steps|] == s;
    PathExtends(run, steps, t, step, rules);
    assert (run + [t])[0] == o && (run + [t])[|steps + [step]|] == t;
  }

  lemma PathExtends(run: seq<System>, steps: seq<Step>, t: System, step: Step, rules: Rules)
    requires Path(run, steps, rules) && Next(run[|steps|], t, step) && Allowed(run[|steps|], step, rules)
    ensures |run| == |steps| + 1 && Path(run + [t], steps + [step], rules)
  {
    hide NextStep, Allowed, Shape;
    var run', steps' := run + [t], steps + [step];
    forall i | 0 <= i < |steps'|
      ensures Next(run'[i], run'[i + 1], steps'[i]) && Shape(run'[i]) && Allowed(run'[i], steps'[i], rules)
    {
      if i < |steps| {
        assert Next(run[i], run[i + 1], steps[i]) && Allowed(run[i], steps[i], rules);
      }
    }
  }

  /** What can be reached from a reachable state is reachable. */
  lemma ReachOn(o: System, t: System, rules: Rules, may: set<Kind>)
    requires Reachable(o, may) && Leads(o, t, rules) && rules.may <= may
    ensures Reachable(t, may)
  {
    hide Next, Shape, Init, Allowed;
    var run, steps :| Run(run, steps) && run[|steps|] == o && Follows(run, steps, Rules(may, true));
    var run1, steps1 :| Path(run1, steps1, rules) && run1[0] == o && run1[|steps1|] == t;
    var run', steps' := run + run1[1..], steps + steps1;
    forall i | 0 <= i < |steps'|
      ensures Next(run'[i], run'[i + 1], steps'[i])
        && Shape(run'[i]) && Allowed(run'[i], steps'[i], Rules(may, true))
    {
      if i < |steps| {
        assert Next(run[i], run[i + 1], steps[i])
          && Shape(run[i]) && Allowed(run[i], steps[i], Rules(may, true));
      } else {
        var j := i - |steps|;
        assert Next(run1[j], run1[j + 1], steps1[j]) && Shape(run1[j]) && Allowed(run1[j], steps1[j], rules);
        MoreAllowed(run1[j], steps1[j], rules, may);
        assert run'[i] == run1[j];
      }
    }
    assert Run(run', steps') && run'[|steps'|] == t;
  }

  lemma MoreAllowed(s: System, step: Step, rules: Rules, may: set<Kind>)
    requires Shape(s) && Allowed(s, step, rules) && rules.may <= may
    ensures Allowed(s, step, Rules(may, true))
  {
  }

  // ------------------------------------------------------------ resting states

  /** The worker has nothing to do for the coordinator and the coordinator nothing to read. */
  ghost predicate Idle(l: Link, e: nat) {
    l.cmds == [] && l.reports == [] && l.recovered == e && !l.lastDone
  }

  ghost predicate MapperReady(a: Mapper, e: nat) {
    a.up && a.rid == e && a.conns == [true, true]
  }

  ghost predicate ReducerReady(b: Reducer, e: nat) {
    b.up && b.rid == e
  }

  ghost predicate Drained(s: System)
    requires Shape(s)
  {
    forall m, r :: 0 <= m < |s.channels| && 0 <= r < REDUCERS ==> s.channels[m][r] == []
  }

  ghost predicate Ready(s: System) {
    && Shape(s)
    && (forall m :: 0 <= m < |s.mappers| ==> MapperReady(s.mappers[m], s.c.epoch))
    && (forall r :: 0 <= r < |s.reducers| ==> ReducerReady(s.reducers[r], s.c.epoch))
  }

  /** Between checkpoints, with all connections intact and nothing under way. */
  ghost predicate Still(s: System) {
    && Ready(s) && Drained(s) && s.c.phase == Cp
    && (forall m :: 0 <= m < |s.mappers| ==> Idle(s.mappers[m].link, s.c.epoch))
    && (forall r :: 0 <= r < |s.reducers| ==> Idle(s.reducers[r].link, s.c.epoch))
  }

  /** No end of a stream has been reported. */
  ghost predicate Resting(s: System) {
    Still(s) && forall m :: 0 <= m < |s.mappers| ==> !s.mappers[m].link.done
  }

  /** All mappers may take steps of this kind. */
  ghost predicate Free(s: System, kind: Kind, rules: Rules) {
    kind in rules.may || forall m :: 0 <= m < |s.mappers| ==> !Early(s, m)
  }

  lemma FreeKept(s: System, t: System, kind: Kind, rules: Rules)
    requires Free(s, kind, rules) && |t.mappers| == |s.mappers| && t.c.epoch == s.c.epoch
    requires forall m :: 0 <= m < |s.mappers| ==> t.mappers[m].stage == s.mappers[m].stage
    ensures Free(t, kind, rules)
  {
    if kind !in rules.may {
      forall m | 0 <= m < |t.mappers| ensures !Early(t, m) {
        assert !Early(s, m);
      }
    }
  }

  // ------------------------------------------------------------ feeding words

  /** How often reducer `r` should count `w` among the files before the cut. */
  ghost function Due(files: seq<seq<seq<string>>>, cut: seq<nat>, r: nat, w: string): nat
    requires |cut| == |files| && forall m :: 0 <= m < |files| ==> cut[m] <= |files[m]|
  {
    if Route(w) == r then Occurrences(AllWords(files, cut), w) else 0
  }

  /** Moving one cursor on makes the words in between due. */
  lemma {:induction false} DueMoves(files: seq<seq<seq<string>>>, cut: seq<nat>, m: nat, n: nat, r: nat, w: string)
    requires |cut| == |files| && forall m :: 0 <= m < |files| ==> cut[m] <= |files[m]|
    requires m < |files| && cut[m] <= n <= |files[m]|
    ensures Due(files, cut[m := n], r, w) + Tally(Items(files[m], r, cut[m]), w)
         == Due(files, cut, r, w) + Tally(Items(files[m], r, n), w)
  {
    hide Items, Tally, Words;
    var l := |files| - 1;
    var cut' := cut[m := n];
    OccurrencesAppend(AllWords(files[..l], cut[..l]), Words(files[l], cut[l]), w);
    OccurrencesAppend(AllWords(files[..l], cut'[..l]), Words(files[l], cut'[l]), w);
    if m == l {
      assert cut'[..l] == cut[..l];
      ItemsTally(files[m], r, cut[m], w);
      ItemsTally(files[m], r, n, w);
    } else {
      assert cut'[..l] == cut[..l][m := n];
      DueMoves(files[..l], cut[..l], m, n, r, w);
    }
  }

  /** The reducers have counted what the mappers have moved past, and nothing else about them has changed. */
  ghost predicate Grown(s: System, t: System) {
    && Shape(s) && Shape(t) && t.files == s.files
    && forall r :: 0 <= r < REDUCERS ==> GrownReducer(s, t, r)
  }

  ghost predicate GrownReducer(s: System, t: System, r: nat)
    requires Shape(s) && Shape(t) && t.files == s.files && r < REDUCERS
  {
    && t.reducers[r] == s.reducers[r].(wc := t.reducers[r].wc, seen := t.reducers[r].seen)
    && forall w :: Get(t.reducers[r].wc, w) + Due(s.files, Cursors(s), r, w)
                == Get(s.reducers[r].wc, w) + Due(s.files, Cursors(t), r, w)
  }

  lemma GrownTwice(s: System, t: System, u: System)
    requires Grown(s, t) && Grown(t, u)
    ensures Grown(s, u)
  {
    hide Due, Shape;
    forall r | 0 <= r < REDUCERS ensures GrownReducer(s, u, r) {
      assert GrownReducer(s, t, r) && GrownReducer(t, u, r);
    }
  }

  /** Reducer `r` takes the next count that mapper `m` has sent it. */
  lemma DeliverOne(o: System, s: System, rules: Rules, m: nat, r: nat, items: seq<Item>) returns (t: System)
    requires Leads(o, s, rules) && Shape(s) && m < |s.mappers| && r < REDUCERS && s.reducers[r].up
    requires s.channels[m][r] == Packets(items, s.reducers[r].rid) && items != []
    ensures Leads(o, t, rules) && Shape(t)
    ensures r < |t.reducers| && t == s.(
      reducers := s.reducers[r := s.reducers[r].(wc := Add(s.reducers[r].wc, items[0]), seen := t.reducers[r].seen)],
      channels := s.channels[m := s.channels[m][r := Packets(items[1..], s.reducers[r].rid)]])
  {
    hide Leads, Add;
    t := s.(reducers := s.reducers[r := Handled(s.reducers[r], m, s.channels[m][r][0])], channels := Dequeue(s, m, r));
    assert s.channels[m][r][0] == Packet.Count(items[0], s.reducers[r].rid);
    assert s.channels[m][r][1..] == Packets(items[1..], s.reducers[r].rid);
    assert DeliverStep(s, t, m, r);
    Extend(o, s, t, Deliver(m, r), rules);
  }

  /** Reducer `r` takes all counts that mapper `m` has sent it. */
  lemma {:induction false} DeliverAll(o: System, s: System, rules: Rules, m: nat, r: nat, items: seq<Item>)
    returns (t: System)
    requires Leads(o, s, rules) && Shape(s) && m < |s.mappers| && r < REDUCERS && s.reducers[r].up
    requires s.channels[m][r] == Packets(items, s.reducers[r].rid)
    ensures Leads(o, t, rules) && Shape(t)
    ensures r < |t.reducers| && t == s.(
      reducers := s.reducers[r := s.reducers[r].(wc := AddAll(s.reducers[r].wc, items), seen := t.reducers[r].seen)],
      channels := s.channels[m := s.channels[m][r := []]])
    decreases |items|
  {
    hide Leads, Add, Packets;
    var b := s.reducers[r];
    if items == [] {
      t := s;
      assert s.channels[m][r := []] == s.channels[m];
      assert s.channels == s.channels[m := s.channels[m][r := []]];
      assert s.reducers == s.reducers[r := b.(wc := AddAll(b.wc, items))];
    } else {
      var u := DeliverOne(o, s, rules, m, r, items);
      t := DeliverAll(o, u, rules, m, r, items[1..]);
      AddFirst(b.wc, items);
      assert u.channels[m][r := []] == s.channels[m][r := []];
      assert t.channels == s.channels[m := s.channels[m][r := []]];
      assert t.reducers == s.reducers[r := t.reducers[r]];
    }
  }

  lemma AddFirst(wc: Counts, items: seq<Item>)
    requires items != []
    ensures AddAll(wc, items) == AddAll(Add(wc, items[0]), items[1..])
  {
    assert [items[0]][..0] == [];
    assert AddAll(wc, [items[0]]) == Add(AddAll(wc, []), items[0]);
    AddAllAppend(wc, [items[0]], items[1..]);
    assert [items[0]] + items[1..] == items;
  }

  /** A mapper sends its next file. */
  lemma SendFile(o: System, s: System, rules: Rules, m: nat) returns (t: System)
    requires Leads(o, s, rules) && Still(s) && Free(s, Sending, rules) && m < |s.mappers|
    requires s.mappers[m].cursor < |s.files[m]|
    ensures Leads(o, t, rules) && Shape(t) && m < |t.channels| && |t.channels[m]| == REDUCERS
    ensures t == s.(mappers := s.mappers[m := s.mappers[m].(cursor := s.mappers[m].cursor + 1)],
                    channels := s.channels[m := t.channels[m]])
    ensures forall r :: 0 <= r < REDUCERS ==>
      t.channels[m][r] == Packets(Share(Counter(s.files[m][s.mappers[m].cursor]), r), s.c.epoch)
  {
    hide Leads, Counter, Share, Packets, Part;
    var a := s.mappers[m];
    var items := Counter(s.files[m][a.cursor]);
    var upto := [|Share(items, 0)|, |Share(items, 1)|];
    assert Reaches(s, m, upto) && Complete(s, m, upto);
    t := s.(mappers := s.mappers[m := a.(cursor := a.cursor + 1)], channels := s.channels[m := Sent(s, m, upto)]);
    assert SendStep(s, t, m, upto, true);
    Extend(o, s, t, Send(m, upto, true), rules);
    forall r | 0 <= r < REDUCERS ensures t.channels[m][r] == Packets(Share(items, r), s.c.epoch) {
      WholePart(s, m, upto, r);
      assert s.channels[m][r] == [];
    }
  }

  lemma WholePart(s: System, m: nat, upto: seq<nat>, r: nat)
    requires Shape(s) && m < |s.mappers| && Reaches(s, m, upto) && Complete(s, m, upto) && r < REDUCERS
    ensures Part(s, m, upto, r) == Share(Counter(s.files[m][s.mappers[m].cursor]), r)
  {
    hide Counter, Share;
  }

  /** A mapper sends its next file, and the reducers count it. */
  lemma FeedFile(o: System, s: System, rules: Rules, m: nat) returns (t: System)
    requires Leads(o, s, rules) && Still(s) && Free(s, Sending, rules) && m < |s.mappers|
    requires s.mappers[m].cursor < |s.files[m]|
    ensures Leads(o, t, rules) && Still(t) && Grown(s, t)
    ensures t == s.(mappers := s.mappers[m := s.mappers[m].(cursor := s.mappers[m].cursor + 1)], reducers := t.reducers)
  {
    hide Leads, Counter, Share, Grown, Packets, AddAll;
    var items := Counter(s.files[m][s.mappers[m].cursor]);
    var u := SendFile(o, s, rules, m);
    var v := DeliverAll(o, u, rules, m, 0, Share(items, 0));
    t := DeliverAll(o, v, rules, m, 1, Share(items, 1));
    assert t.channels[m] == s.channels[m] by {
      assert |t.channels[m]| == |s.channels[m]| == REDUCERS;
    }
    assert t.channels == s.channels;
    FedGrows(s, t, m);
  }

  lemma FedGrows(s: System, t: System, m: nat)
    requires Shape(s) && Shape(t) && m < |s.mappers| && s.mappers[m].cursor < |s.files[m]| && t.files == s.files
    requires t.mappers == s.mappers[m := s.mappers[m].(cursor := s.mappers[m].cursor + 1)]
    requires forall r :: 0 <= r < REDUCERS ==>
      t.reducers[r] == s.reducers[r].(
        wc := AddAll(s.reducers[r].wc, Share(Counter(s.files[m][s.mappers[m].cursor]), r)), seen := t.reducers[r].seen)
    ensures Grown(s, t)
  {
    hide Counter, Share, AddAll, Tally, Due, AllWords, Occurrences;
    var n := s.mappers[m].cursor;
    assert Cursors(t) == Cursors(s)[m := n + 1];
    forall r | 0 <= r < REDUCERS ensures GrownReducer(s, t, r) {
      var share := Share(Counter(s.files[m][n]), r);
      forall w ensures Get(t.reducers[r].wc, w) + Due(s.files, Cursors(s), r, w)
                    == Get(s.reducers[r].wc, w) + Due(s.files, Cursors(t), r, w) {
        AddAllTally(s.reducers[r].wc, share, w);
        TallyAppend(Items(s.files[m], r, n), share, w);
        DueMoves(s.files, Cursors(s), m, n + 1, r, w);
      }
    }
  }

  /** A mapper sends the rest of its stream. */
  lemma {:induction false} FeedStream(o: System, s: System, rules: Rules, m: nat) returns (t: System)
    requires Leads(o, s, rules) && Still(s) && Free(s, Sending, rules) && m < |s.mappers|
    ensures Leads(o, t, rules) && Still(t) && Grown(s, t)
    ensures m < |s.files|
    ensures t == s.(mappers := s.mappers[m := s.mappers[m].(cursor := |s.files[m]|)], reducers := t.reducers)
    decreases |s.files[m]| - s.mappers[m].cursor
  {
    hide Leads, Still, Grown, Shape;
    StillShape(s);
    if s.mappers[m].cursor == |s.files[m]| {
      t := s;
      GrownRefl(s);
      assert s.mappers == s.mappers[m := s.mappers[m].(cursor := |s.files[m]|)];
    } else {
      var u := FeedFile(o, s, rules, m);
      FreeKept(s, u, Sending, rules);
      t := FeedStream(o, u, rules, m);
      GrownTwice(s, u, t);
    }
  }

  /** The mappers from number `i` on send the rest of their streams. */
  lemma {:induction false} FeedFrom(o: System, s: System, rules: Rules, i: nat) returns (t: System)
    requires Leads(o, s, rules) && Still(s) && Free(s, Sending, rules) && i <= |s.mappers|
    ensures Leads(o, t, rules) && Still(t) && Grown(s, t)
    ensures t == s.(mappers := t.mappers, reducers := t.reducers) && |t.mappers| == |s.mappers| == |s.files|
    ensures forall m :: 0 <= m < |s.mappers| ==>
      t.mappers[m] == if m < i then s.mappers[m] else s.mappers[m].(cursor := |s.files[m]|)
    decreases |s.mappers| - i
  {
    hide Leads, Still, Grown, Shape;
    StillShape(s);
    if i == |s.mappers| {
      t := s;
      GrownRefl(s);
    } else {
      var u := FeedStream(o, s, rules, i);
      FreeKept(s, u, Sending, rules);
      t := FeedFrom(o, u, rules, i + 1);
      GrownTwice(s, u, t);
    }
  }

  /** All mappers send the rest of their streams. */
  lemma FeedAll(o: System, s: System, rules: Rules) returns (t: System)
    requires Leads(o, s, rules) && Still(s) && Free(s, Sending, rules)
    ensures Leads(o, t, rules) && Still(t) && (Resting(s) ==> Resting(t)) && Grown(s, t)
    ensures t == s.(mappers := t.mappers, reducers := t.reducers) && |t.mappers| == |s.mappers| == |s.files|
    ensures forall m :: 0 <= m < |s.mappers| ==> t.mappers[m] == s.mappers[m].(cursor := |s.files[m]|)
  {
    hide Leads, Still, Grown, Shape;
    t := FeedFrom(o, s, rules, 0);
  }

  lemma GrownRefl(s: System)
    requires Shape(s)
    ensures Grown(s, s)
  {
    hide Due;
    forall r | 0 <= r < REDUCERS ensures GrownReducer(s, s, r) {
    }
  }

  lemma StillShape(s: System)
    requires Still(s)
    ensures Shape(s) && |s.mappers| == |s.files|
    ensures forall m :: 0 <= m < |s.mappers| ==> s.mappers[m].cursor <= |s.files[m]|
  {
  }

  // ------------------------------------------------------------ checkpoints

  /** The coordinator waits for checkpoint `k`, and no mapper's report can conclude the round or the phase. */
  ghost predicate Open(s: System, k: nat) {
    || (s.c.phase == Cp && 1 <= k == s.c.nextCp && (exists r :: 0 <= r < |s.reducers| && s.reducers[r].link.lastCp != k)
        && forall m :: 0 <= m < |s.mappers| ==> !s.mappers[m].link.done)
    || (s.c.phase == LastCp && k == 0 && exists r :: 0 <= r < |s.reducers| && !s.reducers[r].link.lastDone)
  }

  function CpKind(k: nat): Kind {
    if k == 0 then FinalCp else RoundCp
  }

  /** The coordinator has heard that the worker has taken checkpoint `k`. */
  function Acked(l: Link, k: nat): Link {
    l.(cmds := [], reports := [], lastCp := if k == 0 then l.lastCp else k, lastDone := k == 0 || l.lastDone)
  }

  lemma AckIsHeard(l: Link, k: nat, c: Coordinator)
    requires l.cmds == [] && l.reports == []
    requires (c.phase == Cp && 1 <= k == c.nextCp) || (c.phase == LastCp && k == 0)
    ensures Told(l, Ack(k)).reports != [] && Heard(Told(l, Ack(k)), c) == Acked(l, k)
  {
  }

  function MarkedBy(a: Mapper, k: nat, sound: bool): Mapper {
    a.(saved := a.saved[k := MapperCp(a.cursor, a.rid, sound)], link := Acked(a.link, k))
  }

  ghost predicate Asked(s: System, m: nat, k: nat)
    requires Shape(s) && m < |s.mappers|
  {
    s.mappers[m].link.cmds == [Checkpoint(k, s.c.epoch)] && s.mappers[m].link.reports == [] && s.channels[m] == [[], []]
  }

  /** A mapper checkpoints. */
  lemma MarkStep(o: System, s: System, rules: Rules, m: nat, k: nat) returns (t: System)
    requires Leads(o, s, rules) && Ready(s) && Free(s, CpKind(k), rules) && m < |s.mappers| && Asked(s, m, k)
    ensures Leads(o, t, rules) && Shape(t)
    ensures t == s.(
      mappers := s.mappers[m := Checkpointed(s.mappers[m], Intact(s.reducers), true)],
      channels := s.channels[m := [[Marker(k, s.c.epoch)], [Marker(k, s.c.epoch)]]])
  {
    hide Leads, Intact;
    var a := s.mappers[m];
    var marker := Marker(k, s.c.epoch);
    assert s.channels[m][0] + [marker] == s.channels[m][1] + [marker] == [marker];
    assert Marked(s.channels[m], marker, {0, 1}, a.conns) == [[marker], [marker]];
    t := s.(mappers := s.mappers[m := Checkpointed(a, Intact(s.reducers), true)],
            channels := s.channels[m := [[marker], [marker]]]);
    assert MapperCheckpointStep(s, t, m, {0, 1});
    Extend(o, s, t, MapperCheckpoint(m, {0, 1}), rules);
  }

  /** A mapper checkpoints, and the coordinator hears of it. */
  lemma MarkOne(o: System, s: System, rules: Rules, m: nat, k: nat) returns (t: System)
    requires Leads(o, s, rules) && Ready(s) && Free(s, CpKind(k), rules) && Open(s, k) && m < |s.mappers|
    requires Asked(s, m, k)
    ensures Leads(o, t, rules) && Ready(t) && Open(t, k)
    ensures t == s.(
      mappers := s.mappers[m := MarkedBy(s.mappers[m], k, Intact(s.reducers))],
      channels := s.channels[m := [[Marker(k, s.c.epoch)], [Marker(k, s.c.epoch)]]])
  {
    hide Leads, Intact, Open, Settled, Heard;
    var a := s.mappers[m];
    var u := MarkStep(o, s, rules, m, k);
    assert Pop(a.link).cmds == [];
    OpenNow(s, k);
    AckIsHeard(Pop(a.link), k, s.c);
    t := HearMapper(u, m);
    assert t.mappers == s.mappers[m := MarkedBy(a, k, Intact(s.reducers))];
    OpenStays(s, t, k);
    Extend(o, u, t, HearM(m), rules);
  }

  lemma OpenNow(s: System, k: nat)
    requires Open(s, k)
    ensures (s.c.phase == Cp && 1 <= k == s.c.nextCp) || (s.c.phase == LastCp && k == 0)
  {
  }

  lemma OpenStays(s: System, t: System, k: nat)
    requires Shape(s) && Open(s, k) && t.reducers == s.reducers && t.c == s.c && |t.mappers| == |s.mappers|
    requires forall m :: 0 <= m < |s.mappers| ==> t.mappers[m].link.done == s.mappers[m].link.done
    ensures Open(t, k) && Settled(t) == t
  {
    if s.c.phase == Cp {
      var r :| 0 <= r < |s.reducers| && s.reducers[r].link.lastCp != k;
      assert t.reducers[r].link.lastCp != k;
      assert !t.mappers[0].link.done;
    } else {
      var r :| 0 <= r < |s.reducers| && !s.reducers[r].link.lastDone;
      assert !t.reducers[r].link.lastDone;
    }
  }

  lemma {:induction false} MarkFrom(o: System, s: System, rules: Rules, k: nat, i: nat) returns (t: System)
    requires Leads(o, s, rules) && Ready(s) && Free(s, CpKind(k), rules) && Open(s, k) && i <= |s.mappers|
    requires forall m :: i <= m < |s.mappers| ==> Asked(s, m, k)
    ensures Leads(o, t, rules) && Ready(t)
    ensures t == s.(mappers := t.mappers, channels := t.channels) && |t.mappers| == |s.mappers|
    ensures forall m :: 0 <= m < |s.mappers| ==>
      && t.mappers[m] == (if m < i then s.mappers[m] else MarkedBy(s.mappers[m], k, Intact(s.reducers)))
      && t.channels[m] == if m < i then s.channels[m] else [[Marker(k, s.c.epoch)], [Marker(k, s.c.epoch)]]
    decreases |s.mappers| - i
  {
    hide Leads, Open, Intact, MarkedBy, MapperReady, ReducerReady;
    if i == |s.mappers| {
      t := s;
    } else {
      var u := MarkOne(o, s, rules, i, k);
      StageKept(s.mappers[i], k, Intact(s.reducers));
      forall m | i + 1 <= m < |u.mappers| ensures Asked(u, m, k) {
        assert Asked(s, m, k);
      }
      FreeKept(s, u, CpKind(k), rules);
      t := MarkFrom(o, u, rules, k, i + 1);
    }
  }

  lemma StageKept(a: Mapper, k: nat, sound: bool)
    ensures MarkedBy(a, k, sound).stage == a.stage
  {
  }

  function SavedBy(b: Reducer, k: nat): Reducer {
    b.(saved := b.saved[k := ReducerCp(b.wc, b.seen, b.rid)], link := Acked(b.link, k))
  }

  /** A reducer aligns, and the coordinator hears of it, which may conclude the round or the phase. */
  lemma AlignOne(o: System, s: System, rules: Rules, r: nat, k: nat) returns (h: System)
    requires Leads(o, s, rules) && Ready(s) && r < REDUCERS
    requires (s.c.phase == Cp && 1 <= k == s.c.nextCp) || (s.c.phase == LastCp && k == 0)
    requires s.reducers[r].link.cmds == [] && s.reducers[r].link.reports == []
    requires forall m :: 0 <= m < |s.mappers| ==> s.channels[m][r] == [Marker(k, s.c.epoch)]
    ensures h == s.(reducers := s.reducers[r := SavedBy(s.reducers[r], k)], channels := Reconnected(s.channels, r))
    ensures Ready(h) && Leads(o, Settled(h), rules)
  {
    hide Leads, Settled;
    var b := s.reducers[r];
    var saved := b.saved[k := ReducerCp(b.wc, b.seen, b.rid)];
    var channels := seq(|s.channels|, m requires 0 <= m < |s.channels| => s.channels[m][r := s.channels[m][r][1..]]);
    var u := s.(reducers := s.reducers[r := b.(saved := saved, link := Told(b.link, Ack(k)))], channels := channels);
    assert Aligned(s, r, k);
    assert AlignStep(s, u, r, k);
    Extend(o, s, u, Align(r, k), rules);
    AckIsHeard(b.link, k, s.c);
    h := HearReducer(u, r);
    forall m | 0 <= m < |s.channels| ensures channels[m] == s.channels[m][r := []] {
      assert s.channels[m][r][1..] == [];
    }
    assert channels == Reconnected(s.channels, r);
    assert h.reducers == s.reducers[r := SavedBy(b, k)];
    Extend(o, u, Settled(h), HearR(r), rules);
  }

  /** The coordinator asks for the next checkpoint. */
  lemma AskAll(o: System, s: System, rules: Rules) returns (t: System)
    requires Leads(o, s, rules) && Resting(s) && !s.c.asked && 1 <= s.c.nextCp
    requires exists r :: 0 <= r < REDUCERS && s.reducers[r].link.lastCp != s.c.nextCp
    ensures Leads(o, t, rules) && Ready(t) && Open(t, s.c.nextCp)
    ensures t == s.(c := s.c.(asked := true), mappers := Commanded(s.mappers, Checkpoint(s.c.nextCp, s.c.epoch)))
    ensures forall m :: 0 <= m < |s.mappers| ==> Asked(t, m, s.c.nextCp)
  {
    hide Leads;
    t := s.(c := s.c.(asked := true), mappers := Commanded(s.mappers, Checkpoint(s.c.nextCp, s.c.epoch)));
    assert AskStep(s, t);
    Extend(o, s, t, Ask, rules);
  }

  // ------------------------------------------------------------ the end

  function Finished(a: Mapper): Mapper {
    a.(link := a.link.(done := true, reports := []))
  }

  /** A mapper reports the end of its stream. */
  lemma FinishOne(o: System, s: System, rules: Rules, m: nat) returns (t: System)
    requires Leads(o, s, rules) && Shape(s) && Free(s, Finishing, rules) && m < |s.mappers|
    requires s.mappers[m].up && s.mappers[m].cursor == |s.files[m]|
    ensures Leads(o, t, rules) && Shape(t)
    ensures t == s.(mappers := s.mappers[m := s.mappers[m].(link := Told(s.mappers[m].link, Done))])
  {
    hide Leads;
    t := s.(mappers := s.mappers[m := s.mappers[m].(link := Told(s.mappers[m].link, Done))]);
    assert FinishStep(s, t, m);
    Extend(o, s, t, Finish(m), rules);
  }

  lemma {:induction false} FinishFrom(o: System, s: System, rules: Rules, i: nat) returns (t: System)
    requires Leads(o, s, rules) && Shape(s) && Free(s, Finishing, rules) && i <= |s.mappers|
    requires forall m :: 0 <= m < |s.mappers| ==> s.mappers[m].up && s.mappers[m].cursor == |s.files[m]|
    ensures Leads(o, t, rules) && Shape(t) && t == s.(mappers := t.mappers) && |t.mappers| == |s.mappers|
    ensures forall m :: 0 <= m < |s.mappers| ==>
      t.mappers[m] == if m < i then s.mappers[m] else s.mappers[m].(link := Told(s.mappers[m].link, Done))
    decreases |s.mappers| - i
  {
    hide Leads, Told;
    if i == |s.mappers| {
      t := s;
    } else {
      var u := FinishOne(o, s, rules, i);
      FreeKept(s, u, Finishing, rules);
      t := FinishFrom(o, u, rules, i + 1);
    }
  }

  /** The coordinator hears that a stream has ended. */
  lemma HearDoneOne(o: System, s: System, rules: Rules, m: nat) returns (h: System)
    requires Leads(o, s, rules) && Ready(s) && m < |s.mappers| && s.mappers[m].link.reports == [Done]
    ensures h == s.(mappers := s.mappers[m := Finished(s.mappers[m])]) && Ready(h) && Leads(o, Settled(h), rules)
  {
    hide Leads, Settled;
    assert Heard(s.mappers[m].link, s.c) == s.mappers[m].link.(reports := [], done := true);
    h := HearMapper(s, m);
    Extend(o, s, Settled(h), HearM(m), rules);
  }

  lemma {:induction false} HearDoneFrom(o: System, s: System, rules: Rules, i: nat) returns (t: System)
    requires Leads(o, s, rules) && Ready(s) && s.c.phase == Cp && i < |s.mappers|
    requires exists r :: 0 <= r < |s.reducers| && s.reducers[r].link.lastCp != s.c.nextCp
    requires forall m :: 0 <= m < |s.mappers| ==>
      && (s.mappers[m].link.done <==> m < i) && s.mappers[m].link.reports == if m < i then [] else [Done]
    ensures Leads(o, t, rules) && Ready(t) && |t.mappers| == |s.mappers|
    ensures t == s.(c := s.c.(phase := LastCp), mappers := t.mappers)
    ensures forall m :: 0 <= m < |s.mappers| ==>
      t.mappers[m] == s.mappers[m].(link := s.mappers[m].link.(done := true, reports := [],
        cmds := s.mappers[m].link.cmds + [Checkpoint(0, s.c.epoch)]))
    decreases |s.mappers| - i
  {
    hide Leads, Ready, Settled;
    var h := HearDoneOne(o, s, rules, i);
    assert !RoundComplete(h) by {
      var r :| 0 <= r < |s.reducers| && s.reducers[r].link.lastCp != s.c.nextCp;
      assert h.reducers[r].link.lastCp != h.c.nextCp;
    }
    if i + 1 < |s.mappers| {
      assert !h.mappers[i + 1].link.done;
      MoreStreams(h);
      t := HearDoneFrom(o, h, rules, i + 1);
    } else {
      NoMoreStreams(h);
      t := Settled(h);
    }
  }

  lemma MoreStreams(h: System)
    requires h.c.phase == Cp && !RoundComplete(h) && !StreamsDone(h)
    ensures Settled(h) == h
  {
  }

  lemma NoMoreStreams(h: System)
    requires Ready(h) && h.c.phase == Cp && !RoundComplete(h) && StreamsDone(h)
    ensures Settled(h) == h.(c := h.c.(phase := LastCp), mappers := Commanded(h.mappers, Checkpoint(0, h.c.epoch)))
    ensures Ready(Settled(h))
  {
  }

  /** Streams exhausted: the final checkpoint is taken and the coordinator exits. */
  lemma Exit(o: System, s: System, rules: Rules) returns (t: System)
    requires Leads(o, s, rules) && Resting(s) && Free(s, Finishing, rules) && Free(s, FinalCp, rules)
    requires forall m :: 0 <= m < |s.mappers| ==> s.mappers[m].cursor == |s.files[m]|
    requires exists r :: 0 <= r < REDUCERS && s.reducers[r].link.lastCp != s.c.nextCp
    ensures Leads(o, t, rules) && t.c == s.c.(phase := Exiting) && t.files == s.files
    ensures |s.reducers| == |t.reducers| == REDUCERS
    ensures forall r :: 0 <= r < REDUCERS ==> 0 in t.reducers[r].saved && t.reducers[r].saved[0].wc == s.reducers[r].wc
  {
    hide Leads;
    var u := FinishFrom(o, s, rules, 0);
    FreeKept(s, u, FinalCp, rules);
    t := ExitOnceHeard(o, u, rules);
  }

  /** All mappers have reported the end of their streams, and nothing else is under way. */
  lemma ExitOnceHeard(o: System, s: System, rules: Rules) returns (t: System)
    requires Leads(o, s, rules) && Ready(s) && Drained(s) && s.c.phase == Cp && Free(s, FinalCp, rules)
    requires forall m :: 0 <= m < |s.mappers| ==>
      s.mappers[m].link.cmds == [] && s.mappers[m].link.reports == [Done] && !s.mappers[m].link.done
    requires forall r :: 0 <= r < |s.reducers| ==> Idle(s.reducers[r].link, s.c.epoch)
    requires exists r :: 0 <= r < |s.reducers| && s.reducers[r].link.lastCp != s.c.nextCp
    ensures Leads(o, t, rules) && t.c == s.c.(phase := Exiting) && t.files == s.files
    ensures |s.reducers| == |t.reducers| == REDUCERS
    ensures forall r :: 0 <= r < REDUCERS ==> 0 in t.reducers[r].saved && t.reducers[r].saved[0].wc == s.reducers[r].wc
  {
    hide Leads, Intact, Settled;
    var u := HearDoneFrom(o, s, rules, 0);
    FinalAsked(s, u);
    FreeKept(s, u, FinalCp, rules);
    var v := MarkFrom(o, u, rules, 0, 0);
    var g := AlignOne(o, v, rules, 0, 0);
    assert !g.reducers[1].link.lastDone;
    OneFinal(g);
    var h := AlignOne(o, g, rules, 1, 0);
    assert AllFinal(h);
    t := Settled(h);
    BothFinal(h);
  }

  lemma FinalAsked(s: System, u: System)
    requires Shape(s) && Drained(s) && Shape(u) && u == s.(c := s.c.(phase := LastCp), mappers := u.mappers)
    requires |u.mappers| == |s.mappers|
    requires forall m :: 0 <= m < |s.mappers| ==> s.mappers[m].link.cmds == []
    requires forall r :: 0 <= r < |s.reducers| ==> !s.reducers[r].link.lastDone
    requires forall m :: 0 <= m < |s.mappers| ==>
      u.mappers[m] == s.mappers[m].(link := s.mappers[m].link.(done := true, reports := [],
        cmds := s.mappers[m].link.cmds + [Checkpoint(0, s.c.epoch)]))
    ensures Open(u, 0) && forall m :: 0 <= m < |u.mappers| ==> Asked(u, m, 0)
  {
    assert !u.reducers[0].link.lastDone;
  }

  lemma OneFinal(h: System)
    requires h.c.phase == LastCp && exists r :: 0 <= r < |h.reducers| && !h.reducers[r].link.lastDone
    ensures Settled(h) == h
  {
  }

  lemma BothFinal(h: System)
    requires h.c.phase == LastCp && AllFinal(h)
    ensures Settled(h) == h.(c := h.c.(phase := Exiting))
  {
  }

  // ------------------------------------------------------------ crashes

  /** A mapper dies, if it is not dead already, and is restarted. */
  lemma StrikeMapper(o: System, s: System, rules: Rules, m: nat) returns (t: System)
    requires Leads(o, s, rules) && rules.crashes && Shape(s) && s.c.phase != Exiting && m < |s.mappers|
    ensures Leads(o, t, rules) && Shape(t)
    ensures t == s.(mappers := s.mappers[m := RestartedMapper(s.mappers[m], s.reducers)], c := s.c.(alarm := true))
  {
    hide Leads;
    var a := s.mappers[m];
    var u := s.(mappers := s.mappers[m := a.(up := false)]);
    if a.up {
      assert !Reaches(s, m, []);
      assert MapperCrashStep(s, u, m, []);
      Extend(o, s, u, MapperCrash(m, []), rules);
    } else {
      assert u.mappers == s.mappers;
    }
    t := u.(mappers := u.mappers[m := RestartedMapper(u.mappers[m], u.reducers)], c := u.c.(alarm := true));
    assert t.mappers == s.mappers[m := RestartedMapper(a, s.reducers)];
    assert RestartMapperStep(u, t, m);
    Extend(o, u, t, RestartM(m), rules);
  }

  ghost predicate SameButConns(before: seq<Mapper>, after: seq<Mapper>) {
    && |after| == |before|
    && forall m :: 0 <= m < |before| ==> after[m] == before[m].(conns := after[m].conns)
  }

  /** A reducer dies, if it is not dead already, and is restarted. */
  lemma StrikeReducer(o: System, s: System, rules: Rules, r: nat) returns (t: System)
    requires Leads(o, s, rules) && rules.crashes && Shape(s) && s.c.phase != Exiting && r < REDUCERS
    ensures Leads(o, t, rules) && Shape(t) && SameButConns(s.mappers, t.mappers)
    ensures t == s.(mappers := t.mappers, reducers := s.reducers[r := RestartedReducer(s.reducers[r])],
                    channels := Reconnected(s.channels, r), c := s.c.(alarm := true))
  {
    hide Leads;
    var b := s.reducers[r];
    var dead := s.(reducers := s.reducers[r := b.(up := false)], mappers := Disconnected(s.mappers, r));
    var u := if b.up then dead else s;
    if b.up {
      assert ReducerCrashStep(s, u, r);
      Extend(o, s, u, ReducerCrash(r), rules);
    }
    t := u.(reducers := u.reducers[r := RestartedReducer(u.reducers[r])], channels := Reconnected(u.channels, r),
            c := u.c.(alarm := true));
    assert t.reducers == s.reducers[r := RestartedReducer(b)];
    assert RestartReducerStep(u, t, r);
    Extend(o, u, t, RestartR(r), rules);
  }

  lemma {:induction false} StrikeFrom(o: System, s: System, rules: Rules, i: nat) returns (t: System)
    requires Leads(o, s, rules) && rules.crashes && Shape(s) && s.c.phase != Exiting && i < |s.mappers|
    ensures Leads(o, t, rules) && Shape(t) && |t.mappers| == |s.mappers|
    ensures t == s.(mappers := t.mappers, c := s.c.(alarm := true))
    ensures forall m :: 0 <= m < |s.mappers| ==>
      t.mappers[m] == if m < i then s.mappers[m] else RestartedMapper(s.mappers[m], s.reducers)
    decreases |s.mappers| - i
  {
    hide Leads, Shape, RestartedMapper;
    t := StrikeMapper(o, s, rules, i);
    if i + 1 < |s.mappers| {
      t := StrikeFrom(o, t, rules, i + 1);
    }
  }

  /** A new process in the worker's place, with everything that was on its way to the old one lost. */
  ghost predicate Anew(l: Link, l': Link) {
    l' == l.(cmds := [])
  }

  /** All workers have been struck: they are up, know nothing but their files, and no packet or command is under way. */
  ghost predicate Struck(s: System, t: System) {
    && Shape(s) && Shape(t) && Drained(t) && t.files == s.files && t.c == s.c.(alarm := true)
    && (forall m :: 0 <= m < |s.mappers| ==>
          t.mappers[m].up && t.mappers[m].saved == s.mappers[m].saved && Anew(s.mappers[m].link, t.mappers[m].link))
    && (forall r :: 0 <= r < |s.reducers| ==>
          t.reducers[r].up && t.reducers[r].saved == s.reducers[r].saved
            && Anew(s.reducers[r].link, t.reducers[r].link))
  }

  lemma StrikeAll(o: System, s: System, rules: Rules) returns (t: System)
    requires Leads(o, s, rules) && rules.crashes && Shape(s) && s.c.phase != Exiting
    ensures Leads(o, t, rules) && Struck(s, t)
  {
    hide Leads;
    var u := StrikeFrom(o, s, rules, 0);
    var v := StrikeReducer(o, u, rules, 0);
    t := StrikeReducer(o, v, rules, 1);
  }

  // ------------------------------------------------------------ recovery

  /** The coordinator has heard that the worker has recovered. */
  function Rejoined(l: Link, c: Coordinator): Link {
    l.(cmds := [], reports := [], recovered := c.epoch, lastCp := if c.resets then RestoredId(c.base) else l.lastCp,
       done := false, lastDone := false)
  }

  lemma RecoveryIsHeard(l: Link, c: Coordinator)
    requires l.cmds == [] && l.reports == []
    ensures Told(l, RecoveryAck(c.epoch)).reports != [] && Heard(Told(l, RecoveryAck(c.epoch)), c) == Rejoined(l, c)
  {
  }

  ghost predicate Quiet(l: Link, e: nat) {
    l.cmds == [] && l.reports == [] && l.recovered <= e
  }

  ghost predicate MapperHas(a: Mapper, base: int, length: nat) {
    base < 0 || (base in a.saved && a.saved[base].cursor <= length)
  }

  ghost predicate ReducerHas(b: Reducer, base: int, mappers: nat) {
    base < 0 || (base in b.saved && |b.saved[base].seen| == mappers)
  }

  /** The coordinator may roll back to `base`. */
  ghost predicate Recoverable(s: System, base: int) {
    && Shape(s) && Drained(s) && s.c.phase != Exiting && s.c.alarm && base == RollbackId(LastCps(s))
    && (forall m :: 0 <= m < |s.mappers| ==>
          s.mappers[m].up && Quiet(s.mappers[m].link, s.c.epoch) && MapperHas(s.mappers[m], base, |s.files[m]|))
    && (forall r :: 0 <= r < |s.reducers| ==>
          s.reducers[r].up && Quiet(s.reducers[r].link, s.c.epoch) && ReducerHas(s.reducers[r], base, |s.mappers|))
  }

  function RestoredCounts(b: Reducer, base: int): Counts {
    if base in b.saved then b.saved[base].wc else map[]
  }

  function RejoinedReducer(b: Reducer, c: Coordinator, seen: seq<seq<Item>>): Reducer {
    b.(wc := RestoredCounts(b, c.base), seen := seen, rid := c.epoch, stage := Joined, link := Rejoined(b.link, c))
  }

  /** A reducer recovers, and the coordinator hears of it. */
  lemma RejoinReducer(o: System, s: System, rules: Rules, r: nat) returns (h: System)
    requires Leads(o, s, rules) && Shape(s) && r < REDUCERS && s.reducers[r].up && 1 <= s.c.epoch
    requires ReducerHas(s.reducers[r], s.c.base, |s.mappers|)
    requires s.reducers[r].link.cmds == [Recover(s.c.epoch, s.c.base)] && s.reducers[r].link.reports == []
    ensures Leads(o, Settled(h), rules) && Shape(h)
    ensures r < |h.reducers|
      && h == s.(reducers := s.reducers[r := RejoinedReducer(s.reducers[r], s.c, h.reducers[r].seen)])
  {
    hide Leads, Settled;
    var b := s.reducers[r];
    var u := s.(reducers := s.reducers[r := Restored(b, s.c.epoch, s.c.base, |s.mappers|, s.c.epoch)]);
    assert ReducerRecoverStep(s, u, r);
    Extend(o, s, u, ReducerRecover(r), rules);
    assert Pop(b.link).cmds == [];
    RecoveryIsHeard(Pop(b.link), s.c);
    h := HearReducer(u, r);
    assert h.reducers == s.reducers[r := RejoinedReducer(b, s.c, u.reducers[r].seen)];
    Extend(o, u, Settled(h), HearR(r), rules);
  }

  function RejoinedMapper(a: Mapper, c: Coordinator): Mapper {
    a.(cursor := SavedCursor(a, c.base), rid := c.epoch, conns := [true, true], stage := Joined,
       link := Rejoined(a.link, c))
  }

  /** A mapper recovers, and the coordinator hears of it. */
  lemma RejoinMapper(o: System, s: System, rules: Rules, m: nat) returns (h: System)
    requires Leads(o, s, rules) && Shape(s) && m < |s.mappers| && s.mappers[m].up && 1 <= s.c.epoch
    requires MapperHas(s.mappers[m], s.c.base, |s.files[m]|) && forall r :: 0 <= r < |s.reducers| ==> s.reducers[r].up
    requires s.mappers[m].link.cmds == [Recover(s.c.epoch, s.c.base)] && s.mappers[m].link.reports == []
    ensures Leads(o, Settled(h), rules) && Shape(h)
    ensures h == s.(mappers := s.mappers[m := RejoinedMapper(s.mappers[m], s.c)])
  {
    hide Leads, Settled;
    var a := s.mappers[m];
    var a' := a.(cursor := SavedCursor(a, s.c.base), rid := s.c.epoch, conns := Connected(s.reducers),
                 stage := Joined, link := Told(Pop(a.link), RecoveryAck(s.c.epoch)));
    var u := s.(mappers := s.mappers[m := a']);
    assert MapperRecoverStep(s, u, m);
    Extend(o, s, u, MapperRecover(m), rules);
    assert Pop(a.link).cmds == [] && Connected(s.reducers) == [true, true];
    RecoveryIsHeard(Pop(a.link), s.c);
    h := HearMapper(u, m);
    assert h.mappers == s.mappers[m := RejoinedMapper(a, s.c)];
    Extend(o, u, Settled(h), HearM(m), rules);
  }

  lemma {:induction false} RejoinFrom(o: System, s: System, rules: Rules, i: nat) returns (t: System)
    requires Leads(o, s, rules) && Shape(s) && i < |s.mappers| && 1 <= s.c.epoch && s.c.phase == RecoverMappers
    requires forall r :: 0 <= r < |s.reducers| ==> s.reducers[r].up
    requires forall m :: 0 <= m < i ==> s.mappers[m].link.recovered == s.c.epoch
    requires forall m :: i <= m < |s.mappers| ==>
      && s.mappers[m].up && MapperHas(s.mappers[m], s.c.base, |s.files[m]|)
      && s.mappers[m].link.cmds == [Recover(s.c.epoch, s.c.base)] && s.mappers[m].link.reports == []
      && s.mappers[m].link.recovered < s.c.epoch
    ensures Leads(o, t, rules) && Shape(t) && |t.mappers| == |s.mappers|
    ensures t == s.(c := s.c.(phase := Cp), mappers := t.mappers)
    ensures forall m :: 0 <= m < |s.mappers| ==>
      t.mappers[m] == if m < i then s.mappers[m] else RejoinedMapper(s.mappers[m], s.c)
    decreases |s.mappers| - i
  {
    hide Leads, MapperHas, Shape;
    var h := RejoinMapper(o, s, rules, i);
    if i + 1 < |s.mappers| {
      assert h.mappers[i + 1].link.recovered != s.c.epoch;
      assert Settled(h) == h;
      t := RejoinFrom(o, h, rules, i + 1);
    } else {
      assert MappersRecovered(h);
      t := Settled(h);
      PhaseShape(h, t);
    }
  }

  lemma PhaseShape(h: System, t: System)
    requires Shape(h) && t == h.(c := t.c)
    ensures Shape(t)
  {
  }

  /** What a rollback to `base` and the recovery of all workers make of the state. */
  ghost predicate Recovered(s: System, t: System, base: int) {
    && |t.mappers| == |s.mappers| && |t.reducers| == |s.reducers| && t.files == s.files
    && t.c == s.c.(phase := Cp, epoch := s.c.epoch + 1, asked := false, base := base, alarm := false)
    && (forall m :: 0 <= m < |s.mappers| ==> t.mappers[m] == RejoinedMapper(s.mappers[m], t.c))
    && (forall r :: 0 <= r < |s.reducers| ==>
          t.reducers[r] == RejoinedReducer(s.reducers[r], t.c, t.reducers[r].seen))
  }

  /** The coordinator rolls back: all workers are to recover from `base` into a new epoch. */
  lemma Rolled(o: System, s: System, rules: Rules, base: int) returns (t: System)
    requires Leads(o, s, rules) && Recoverable(s, base)
    ensures Leads(o, t, rules) && Shape(t) && t.files == s.files && t.channels == s.channels
    ensures t.c == s.c.(phase := RecoverReducers, epoch := s.c.epoch + 1, asked := false, base := base, alarm := false)
    ensures |t.mappers| == |s.mappers| && |t.reducers| == |s.reducers| == REDUCERS
    ensures forall m :: 0 <= m < |s.mappers| ==> t.mappers[m] == s.mappers[m].(stage := Waiting)
    ensures forall r :: 0 <= r < REDUCERS ==>
      t.reducers[r] == s.reducers[r].(stage := Waiting, link := s.reducers[r].link.(cmds := [Recover(t.c.epoch, base)]))
  {
    hide Leads, RollbackId, LastCps;
    var c := s.c.(phase := RecoverReducers, epoch := s.c.epoch + 1, asked := false, base := base, alarm := false);
    t := s.(c := c, mappers := Lagging(s.mappers), reducers := Rallied(s.reducers, Recover(s.c.epoch + 1, base)));
    assert RollbackStep(s, t);
    Extend(o, s, t, Rollback, rules);
  }

  /** Both reducers recover, and the mappers are told to. */
  lemma ReducersRejoin(o: System, s: System, rules: Rules) returns (t: System)
    requires Leads(o, s, rules) && Shape(s) && s.c.phase == RecoverReducers && 1 <= s.c.epoch
    requires forall r :: 0 <= r < REDUCERS ==>
      && s.reducers[r].up && ReducerHas(s.reducers[r], s.c.base, |s.mappers|)
      && s.reducers[r].link.cmds == [Recover(s.c.epoch, s.c.base)] && s.reducers[r].link.reports == []
      && s.reducers[r].link.recovered < s.c.epoch
    ensures Leads(o, t, rules) && |t.reducers| == REDUCERS && Shape(t)
    ensures t == s.(c := s.c.(phase := RecoverMappers),
                    mappers := Commanded(s.mappers, Recover(s.c.epoch, s.c.base)), reducers := t.reducers)
    ensures forall r :: 0 <= r < REDUCERS ==> t.reducers[r] == RejoinedReducer(s.reducers[r], s.c, t.reducers[r].seen)
  {
    hide Leads, Settled, ReducerHas;
    var g := RejoinReducer(o, s, rules, 0);
    assert g.reducers[1].link.recovered != g.c.epoch;
    StillReducers(g);
    var h := RejoinReducer(o, g, rules, 1);
    MappersNext(h);
    t := Settled(h);
  }

  lemma RecoverAll(o: System, s: System, rules: Rules, base: int) returns (t: System)
    requires Leads(o, s, rules) && Recoverable(s, base)
    ensures Leads(o, t, rules) && Resting(t) && Recovered(s, t, base)
  {
    hide Leads, RollbackId, LastCps;
    var u := Rolled(o, s, rules, base);
    var v := ReducersRejoin(o, u, rules);
    t := RejoinFrom(o, v, rules, 0);
  }

  lemma StillReducers(h: System)
    requires h.c.phase == RecoverReducers
    requires exists r :: 0 <= r < |h.reducers| && h.reducers[r].link.recovered != h.c.epoch
    ensures Settled(h) == h
  {
  }

  lemma MappersNext(h: System)
    requires h.c.phase == RecoverReducers && ReducersRecovered(h)
    ensures Settled(h)
         == h.(c := h.c.(phase := RecoverMappers), mappers := Commanded(h.mappers, Recover(h.c.epoch, h.c.base)))
  {
  }

  /** The coordinator has nothing to read. */
  ghost predicate AllHeard(s: System) {
    && (forall m :: 0 <= m < |s.mappers| ==> s.mappers[m].link.reports == [])
    && (forall r :: 0 <= r < |s.reducers| ==> s.reducers[r].link.reports == [])
  }
}
