/**
 * The limits of the checkpointed word count: which steps of restarted mappers its guarantees bear, and that recoveries
 * must reset the last checkpoint.
 */
module DataflowLimits {
  import opened WordCount
  import opened Dataflow
  import opened DataflowInv
  import opened DataflowBase
  import opened DataflowSteps
  import opened DataflowTheorems
  import opened DataflowRuns

  // ------------------------------------------------------------ rolling back any number of times

  /** Restarted mappers do nothing in the first epoch. */
  const STRICT := Rules({}, true)

  /** After all workers have been struck, the coordinator finds a checkpoint to roll back to. */
  lemma CanRollBack(s: System, t: System)
    requires Base(t) && Struck(s, t) && AllHeard(s) && s.c.phase != Exiting
    ensures Recoverable(t, RollbackId(LastCps(t))) && RestoredId(RollbackId(LastCps(t))) < t.c.nextCp
  {
    hide ChannelsBase, RoundComplete, Undecided, MapperBase, ReducerBase, Sums, LastCps, RollbackId;
    RollbackIsCompleted(t);
    var base := RollbackId(LastCps(t));
    forall m | 0 <= m < |t.mappers|
      ensures Quiet(t.mappers[m].link, t.c.epoch) && MapperHas(t.mappers[m], base, |t.files[m]|)
    {
      MapperBaseAt(t, m);
      MapperCanRollBack(t.files[m], t.mappers[m], t.c, base);
    }
    forall r | 0 <= r < |t.reducers|
      ensures Quiet(t.reducers[r].link, t.c.epoch) && ReducerHas(t.reducers[r], base, |t.mappers|)
    {
      ReducerBaseAt(t, r);
      ReducerCanRollBack(t.reducers[r], |t.mappers|, t.c, base);
    }
  }

  lemma MapperCanRollBack(f: seq<seq<string>>, a: Mapper, c: Coordinator, base: int)
    requires MapperBase(f, a, c) && FromOk(base, c.nextCp)
    ensures a.link.recovered <= c.epoch && MapperHas(a, base, |f|)
  {
  }

  lemma ReducerCanRollBack(b: Reducer, mappers: nat, c: Coordinator, base: int)
    requires ReducerBase(b, mappers, c) && FromOk(base, c.nextCp)
    ensures b.link.recovered <= c.epoch && ReducerHas(b, base, mappers)
  {
  }

  /** All workers are struck, the coordinator rolls back, and they recover. */
  lemma StrikeAndRecover(o: System, s: System) returns (t: System)
    requires Reachable(o, {}) && o.c.resets && s.c.resets && Leads(o, s, STRICT)
    requires Shape(s) && AllHeard(s) && s.c.phase != Exiting
    ensures Leads(o, t, STRICT) && Resting(t) && t.c.epoch == s.c.epoch + 1 && t.files == s.files && t.c.resets
    ensures forall m :: 0 <= m < |t.mappers| ==> !Early(t, m)
    ensures forall r :: 0 <= r < |t.reducers| ==> t.reducers[r].link.lastCp < t.c.nextCp
  {
    hide Reachable, Leads, Base, Recoverable, Resting, LastCps, RollbackId;
    var u := StrikeAll(o, s, STRICT);
    ReachOn(o, u, STRICT, {});
    ReachableBase(u, {});
    CanRollBack(s, u);
    t := RecoverAll(o, u, STRICT, RollbackId(LastCps(u)));
  }

  /** The mappers send what is left, and the coordinator exits. */
  lemma FeedAndExit(o: System, s: System, rules: Rules) returns (t: System)
    requires Leads(o, s, rules) && Resting(s) && forall m :: 0 <= m < |s.mappers| ==> !Early(s, m)
    requires exists r :: 0 <= r < REDUCERS && s.reducers[r].link.lastCp != s.c.nextCp
    ensures Leads(o, t, rules) && t.c == s.c.(phase := Exiting) && t.files == s.files
  {
    hide Leads;
    var r :| 0 <= r < REDUCERS && s.reducers[r].link.lastCp != s.c.nextCp;
    var u := FeedAll(o, s, rules);
    assert GrownReducer(s, u, r);
    assert u.reducers[r].link.lastCp != u.c.nextCp;
    FreeKept(s, u, Finishing, rules);
    FreeKept(s, u, FinalCp, rules);
    t := Exit(o, u, rules);
  }

  lemma RestingReducers(s: System)
    requires Resting(s)
    ensures Shape(s) && AllHeard(s) && s.c.phase != Exiting && Still(s)
  {
  }

  // ------------------------------------------------------------ the beginning

  function Fresh(files: seq<seq<seq<string>>>, resets: bool): System {
    var b := Reducer(true, map[], NothingSeen(|files|), 0, map[], Joined, NEW_LINK);
    System(files, seq(|files|, _ => NEW_MAPPER), [b, b], seq(|files|, _ => [[], []]),
           Coordinator(Cp, 0, 1, false, -1, false, resets))
  }

  lemma FreshStart(files: seq<seq<seq<string>>>, rules: Rules, resets: bool)
    requires NoEmptyWords(files) && files != []
    ensures var s := Fresh(files, resets);
      && Reachable(s, rules.may) && Leads(s, s, rules) && Resting(s)
      && forall m :: 0 <= m < |s.mappers| ==> !Early(s, m)
  {
    hide NoEmptyWords;
    var s := Fresh(files, resets);
    Stay(s, rules);
    assert Init(s);
    var steps: seq<Step> := [];
    assert Run([s], steps) && [s][|steps|] == s && Follows([s], steps, Rules(rules.may, true));
  }

  /**
   * For every set of files and every number of rollbacks: some run counts everything, loses all workers and rolls
   * back that many times, and exits.
   */
  lemma SomeRunExits(files: seq<seq<seq<string>>>, rollbacks: nat) returns (t: System)
    requires NoEmptyWords(files) && files != []
    ensures Reachable(t, {}) && t.c.resets && t.files == files && t.c.phase == Exiting && t.c.epoch == rollbacks
  {
    hide Reachable, Leads, Resting, NoEmptyWords;
    var o := Fresh(files, true);
    FreshStart(files, STRICT, true);
    var s := o;
    for i := 0 to rollbacks
      invariant Leads(o, s, STRICT) && Resting(s) && s.c.epoch == i && |s.reducers| == REDUCERS
      invariant s.files == files && s.c.resets && forall m :: 0 <= m < |s.mappers| ==> !Early(s, m)
      invariant forall r :: 0 <= r < |s.reducers| ==> s.reducers[r].link.lastCp < s.c.nextCp
    {
      RestingReducers(s);
      var u := FeedAll(o, s, STRICT);
      RestingReducers(u);
      s := StrikeAndRecover(o, u);
      RestingReducers(s);
    }
    assert s.reducers[0].link.lastCp != s.c.nextCp;
    t := FeedAndExit(o, s, STRICT);
    ReachOn(o, t, STRICT, {});
  }

  // ------------------------------------------------------------ when the guarantees hold

  /** In every run under the given choices, completed checkpoints are consistent cuts. */
  ghost predicate AlwaysConsistent(files: seq<seq<seq<string>>>, may: set<Kind>, resets: bool) {
    forall s, k :: Reachable(s, may) && s.files == files && s.c.resets == resets && Completed(s, k) ==>
      Written(s, k) && Consistent(s, k)
  }

  ghost predicate CountedOnce(s: System) {
    && Written(s, 0)
    && s.reducers[0].saved[0].wc + s.reducers[1].saved[0].wc == SequentialCount(AllWords(s.files, Ends(s)))
  }

  /** In every run under the given choices, the coordinator exits with every word counted exactly once. */
  ghost predicate AlwaysOnce(files: seq<seq<seq<string>>>, may: set<Kind>, resets: bool) {
    forall s :: Reachable(s, may) && s.files == files && s.c.resets == resets && s.c.phase == Exiting ==>
      CountedOnce(s)
  }

  ghost predicate Contains(files: seq<seq<seq<string>>>, m: nat, w: string) {
    m < |files| && w in Words(files[m], |files[m]|)
  }

  function EndsOf(files: seq<seq<seq<string>>>): (cut: seq<nat>)
    ensures |cut| == |files| && forall m :: 0 <= m < |files| ==> cut[m] == |files[m]|
  {
    seq(|files|, m requires 0 <= m < |files| => |files[m]|)
  }

  /** Reading stream `m` again would count `w` again. */
  lemma DueAgain(files: seq<seq<seq<string>>>, m: nat, w: string)
    requires Contains(files, m, w)
    ensures Due(files, EndsOf(files)[m := 0], Route(w), w) < Due(files, EndsOf(files), Route(w), w)
  {
    hide AllWords, Words, Items;
    var r := Route(w);
    DueMoves(files, EndsOf(files)[m := 0], m, |files[m]|, r, w);
    assert EndsOf(files)[m := 0][m := |files[m]|] == EndsOf(files);
    ItemsTally(files[m], r, |files[m]|, w);
    OccurrencesPositive(Words(files[m], |files[m]|), w);
    assert Items(files[m], r, 0) == [] by {
      NoItems(files[m], r);
    }
  }

  lemma NoItems(f: seq<seq<string>>, r: nat)
    ensures Items(f, r, 0) == []
  {
  }

  /** A file with a wrong count of a word does not belong to a consistent cut. */
  lemma WrongFile(s: System, k: nat, w: string, cut: seq<nat>)
    requires |s.reducers| == REDUCERS && |s.files| == |s.mappers| == |cut|
    requires forall m :: 0 <= m < |cut| ==>
      cut[m] <= |s.files[m]| && k in s.mappers[m].saved && s.mappers[m].saved[k].cursor == cut[m]
    requires k in s.reducers[Route(w)].saved
      && Get(s.reducers[Route(w)].saved[k].wc, w) != Due(s.files, cut, Route(w), w)
    ensures !(Written(s, k) && Consistent(s, k))
  {
    if Written(s, k) {
      assert Cut(s, k) == cut;
    }
  }

  /** A wrong count of a word spoils the merged counts. */
  lemma WrongMerge(s: System, w: string)
    requires |s.reducers| == REDUCERS && forall r :: 0 <= r < REDUCERS ==> 0 in s.reducers[r].saved
    requires Get(s.reducers[Route(w)].saved[0].wc, w) != Due(s.files, EndsOf(s.files), Route(w), w)
    requires 0 < Due(s.files, EndsOf(s.files), Route(w), w)
    requires Get(s.reducers[1 - Route(w)].saved[0].wc, w) == 0
    ensures !CountedOnce(s)
  {
    hide AllWords;
    var tokens := AllWords(s.files, EndsOf(s.files));
    var merged := s.reducers[0].saved[0].wc + s.reducers[1].saved[0].wc;
    OccurrencesPositive(tokens, w);
    assert Get(SequentialCount(tokens), w) == Occurrences(tokens, w);
    assert Get(merged, w) != Occurrences(tokens, w);
    assert Written(s, 0) ==> Ends(s) == EndsOf(s.files);
  }

  // ------------------------------------------------------------ a restarted mapper that takes a checkpoint

  /** All words are counted; then mapper `m` dies and starts from the beginning, in the same epoch. */
  lemma Restarted(files: seq<seq<seq<string>>>, rules: Rules, resets: bool, m: nat) returns (o: System, s: System)
    requires NoEmptyWords(files) && m < |files| && rules.crashes
    ensures Reachable(o, rules.may) && Leads(o, s, rules) && Resting(s)
    ensures s.files == files && |s.mappers| == |files| && s.c == Coordinator(Cp, 0, 1, false, -1, true, resets)
    ensures Cursors(s) == EndsOf(files)[m := 0] && |s.reducers| == REDUCERS
    ensures forall r :: 0 <= r < REDUCERS ==> s.reducers[r].link == NEW_LINK
    ensures forall n :: 0 <= n < |s.mappers| ==> s.mappers[n].link == NEW_LINK
    ensures forall r, w :: 0 <= r < REDUCERS ==> Get(s.reducers[r].wc, w) == Due(files, EndsOf(files), r, w)
  {
    hide Reachable, Leads, NoEmptyWords, Due;
    o := Fresh(files, resets);
    FreshStart(files, rules, resets);
    var u := FeedAll(o, o, rules);
    s := StrikeMapper(o, u, rules, m);
    assert Connected(u.reducers) == [true, true];
    assert Cursors(u) == EndsOf(files);
    forall r | 0 <= r < REDUCERS ensures s.reducers[r].link == NEW_LINK {
      assert GrownReducer(o, u, r);
    }
    forall r, w | 0 <= r < REDUCERS ensures Get(s.reducers[r].wc, w) == Due(files, EndsOf(files), r, w) {
      assert GrownReducer(o, u, r);
      NothingDue(o, r, w);
    }
  }

  lemma NothingDue(s: System, r: nat, w: string)
    requires Shape(s) && forall m :: 0 <= m < |s.mappers| ==> s.mappers[m].cursor == 0
    ensures Due(s.files, Cursors(s), r, w) == 0
  {
    NoWords(s.files, Cursors(s));
  }

  lemma {:induction false} NoWords(files: seq<seq<seq<string>>>, cut: seq<nat>)
    requires |cut| == |files| && forall m :: 0 <= m < |files| ==> cut[m] == 0
    ensures AllWords(files, cut) == []
  {
    if files != [] {
      NoWords(files[..|files| - 1], cut[..|files| - 1]);
    }
  }

  /** A round whose last report is that of reducer `r` completes. */
  lemma RoundCompletes(h: System)
    requires h.c.phase == Cp && RoundComplete(h)
    ensures Settled(h) == h.(c := h.c.(nextCp := h.c.nextCp + 1, asked := false))
  {
  }

  lemma RoundGoesOn(h: System)
    requires Open(h, h.c.nextCp) && Ready(h) && h.c.phase == Cp
    ensures Settled(h) == h
  {
    var r :| 0 <= r < |h.reducers| && h.reducers[r].link.lastCp != h.c.nextCp;
    assert !RoundComplete(h);
    assert !h.mappers[0].link.done;
  }

  /** All mappers take checkpoint 1. */
  lemma MarkRound(o: System, s: System, rules: Rules) returns (t: System)
    requires Leads(o, s, rules) && Resting(s) && Free(s, RoundCp, rules) && !s.c.asked && s.c.nextCp == 1
    requires exists r :: 0 <= r < REDUCERS && s.reducers[r].link.lastCp != 1
    ensures Leads(o, t, rules) && Ready(t)
    ensures t == s.(c := s.c.(asked := true), mappers := t.mappers, channels := t.channels)
    ensures |t.mappers| == |s.mappers|
    ensures forall m :: 0 <= m < |s.mappers| ==>
      && t.mappers[m] == MarkedBy(s.mappers[m], 1, Intact(s.reducers))
      && t.channels[m] == [[Marker(1, s.c.epoch)], [Marker(1, s.c.epoch)]]
  {
    hide Leads, Ready, Open, Asked, Intact;
    var u := AskAll(o, s, rules);
    FreeKept(s, u, RoundCp, rules);
    t := MarkFrom(o, u, rules, 1, 0);
    forall m | 0 <= m < |s.mappers| ensures t.mappers[m] == MarkedBy(s.mappers[m], 1, Intact(s.reducers)) {
      Uncommanded(s.mappers[m], u.mappers[m], 1, Intact(s.reducers));
    }
  }

  /** Acknowledging leaves no command behind. */
  lemma Uncommanded(a: Mapper, a': Mapper, k: nat, sound: bool)
    requires a' == a.(link := a.link.(cmds := a'.link.cmds))
    ensures MarkedBy(a', k, sound) == MarkedBy(a, k, sound)
  {
  }

  /** Both reducers take checkpoint 1, which completes it. */
  lemma AlignRound(o: System, s: System, rules: Rules) returns (t: System)
    requires Leads(o, s, rules) && Ready(s) && s.c.phase == Cp && s.c.nextCp == 1
    requires forall m :: 0 <= m < |s.mappers| ==>
      && s.channels[m] == [[Marker(1, s.c.epoch)], [Marker(1, s.c.epoch)]]
      && s.mappers[m].link.lastCp == 1 && !s.mappers[m].link.done
    requires forall r :: 0 <= r < REDUCERS ==> s.reducers[r].link == NEW_LINK
    ensures Leads(o, t, rules) && Shape(t) && Drained(t)
    ensures t == s.(c := s.c.(nextCp := 2, asked := false), reducers := t.reducers, channels := t.channels)
    ensures forall r :: 0 <= r < REDUCERS ==> t.reducers[r] == SavedBy(s.reducers[r], 1)
  {
    hide Leads, Settled;
    var g := AlignOne(o, s, rules, 0, 1);
    assert g.reducers[1].link.lastCp != 1;
    RoundGoesOn(g);
    var h := AlignOne(o, g, rules, 1, 1);
    RoundCompletes(h);
    t := Settled(h);
  }

  lemma Within(files: seq<seq<seq<string>>>, m: nat, w: string)
    requires Contains(files, m, w)
    ensures m < |files|
  {
  }

  /**
   * Checkpoint 1 is completed right after the restart, and the system may roll back to it: the reducers' files count
   * words that the mapper will read again. The restarted mapper has taken the checkpoint and done nothing else.
   */
  lemma HastyRound(files: seq<seq<seq<string>>>, rules: Rules, resets: bool, m: nat) returns (o: System, t: System)
    requires NoEmptyWords(files) && m < |files| && rules.crashes && RoundCp in rules.may
    ensures Reachable(o, rules.may) && Leads(o, t, rules)
    ensures t.files == files && t.c == Coordinator(Cp, 0, 2, false, -1, true, resets) && Recoverable(t, 1)
    ensures forall n :: 0 <= n < |t.mappers| ==>
      1 in t.mappers[n].saved && t.mappers[n].saved[1].cursor == EndsOf(files)[m := 0][n]
    ensures forall r :: 0 <= r < REDUCERS ==> 1 in t.reducers[r].saved && t.reducers[r].link.lastCp == 1
    ensures forall r, w :: 0 <= r < REDUCERS ==>
      Get(t.reducers[r].saved[1].wc, w) == Due(files, EndsOf(files), r, w)
  {
    hide Reachable, Leads, NoEmptyWords, Due, Intact, RollbackId, LastCps;
    var s;
    o, s := Restarted(files, rules, resets, m);
    assert s.reducers[0].link.lastCp != 1;
    var u := MarkRound(o, s, rules);
    t := AlignRound(o, u, rules);
    forall n | 0 <= n < |t.mappers|
      ensures 1 in t.mappers[n].saved && t.mappers[n].saved[1].cursor == EndsOf(files)[m := 0][n]
    {
      assert s.mappers[n].cursor == Cursors(s)[n];
    }
    AllAtOne(t);
  }

  /** When all workers have reported checkpoint 1, the system rolls back to it. */
  lemma AllAtOne(t: System)
    requires 0 < |t.mappers|
    requires forall m :: 0 <= m < |t.mappers| ==> t.mappers[m].link.lastCp == 1
    requires forall r :: 0 <= r < |t.reducers| ==> t.reducers[r].link.lastCp == 1
    ensures RollbackId(LastCps(t)) == 1
  {
    hide Least;
    var ids := LastCps(t);
    forall i | 0 <= i < |ids| ensures ids[i] == 1 {
      if |t.mappers| <= i {
        assert ids[|t.mappers| + (i - |t.mappers|)] == t.reducers[i - |t.mappers|].link.lastCp;
      }
    }
    LeastIsLeast(ids);
    assert ids[0] == 1;
  }

  /** The completed checkpoint is no consistent cut. */
  lemma HastyCheckpoint(files: seq<seq<seq<string>>>, may: set<Kind>, resets: bool, m: nat, w: string)
    returns (t: System)
    requires NoEmptyWords(files) && Contains(files, m, w) && RoundCp in may
    ensures Reachable(t, may) && t.files == files && t.c.resets == resets && Completed(t, 1)
    ensures !(Written(t, 1) && Consistent(t, 1))
  {
    hide Reachable, Leads, NoEmptyWords, Due, Contains, Consistent, Written;
    Within(files, m, w);
    DueAgain(files, m, w);
    var o;
    o, t := HastyRound(files, Rules(may, true), resets, m);
    ReachOn(o, t, Rules(may, true), may);
    WrongFile(t, 1, w, EndsOf(files)[m := 0]);
  }

  /** The system rolls back to that checkpoint and exits: the words of mapper `m` have been counted twice. */
  lemma HastyExit(files: seq<seq<seq<string>>>, may: set<Kind>, resets: bool, m: nat, w: string) returns (t: System)
    requires NoEmptyWords(files) && Contains(files, m, w) && RoundCp in may
    ensures Reachable(t, may) && t.files == files && t.c.resets == resets && t.c.phase == Exiting && !CountedOnce(t)
  {
    hide Reachable, Leads, NoEmptyWords, Due, Contains, CountedOnce, RollbackId, LastCps, Recoverable;
    var rules := Rules(may, true);
    Within(files, m, w);
    DueAgain(files, m, w);
    var o, s := HastyRound(files, rules, resets, m);
    RecoverableShape(s, 1);
    var v := RecoverAll(o, s, rules, 1);
    var u := FeedAll(o, v, rules);
    assert Cursors(v) == EndsOf(files)[m := 0] && Cursors(u) == EndsOf(files);
    assert GrownReducer(v, u, 0) && GrownReducer(v, u, 1);
    assert u.reducers[0].link.lastCp != u.c.nextCp;
    t := Exit(o, u, rules);
    ReachOn(o, t, rules, may);
    NotRouted(files, EndsOf(files), w);
    NotRouted(files, EndsOf(files)[m := 0], w);
    WrongMerge(t, w);
  }

  lemma RecoverableShape(s: System, base: int)
    requires Recoverable(s, base)
    ensures Shape(s)
  {
  }

  lemma NotRouted(files: seq<seq<seq<string>>>, cut: seq<nat>, w: string)
    requires |cut| == |files| && forall m :: 0 <= m < |files| ==> cut[m] <= |files[m]|
    ensures Due(files, cut, 1 - Route(w), w) == 0
  {
  }

  /**
   * All mappers have reported the end of their streams; then the reducer that `w` is routed to and all mappers die. The
   * coordinator hears of the ends of the streams, and the restarted mappers take the final checkpoint and do nothing
   * else: the coordinator exits with the words of that reducer lost.
   */
  lemma LateExit(files: seq<seq<seq<string>>>, may: set<Kind>, resets: bool, m: nat, w: string) returns (t: System)
    requires NoEmptyWords(files) && Contains(files, m, w) && FinalCp in may
    ensures Reachable(t, may) && t.files == files && t.c.resets == resets && t.c.phase == Exiting && !CountedOnce(t)
  {
    hide Reachable, Leads, NoEmptyWords, Due, Contains, CountedOnce;
    var rules := Rules(may, true);
    Within(files, m, w);
    DueAgain(files, m, w);
    var o, s := EndsReported(files, rules, resets, w);
    assert s.reducers[0].link.lastCp != s.c.nextCp;
    t := ExitOnceHeard(o, s, rules);
    ReachOn(o, t, rules, may);
    WrongMerge(t, w);
  }

  lemma EndsReported(files: seq<seq<seq<string>>>, rules: Rules, resets: bool, w: string) returns (o: System, s: System)
    requires NoEmptyWords(files) && files != [] && rules.crashes
    ensures Reachable(o, rules.may) && Leads(o, s, rules) && Ready(s) && Drained(s) && s.files == files
    ensures s.c == Coordinator(Cp, 0, 1, false, -1, true, resets)
    ensures forall m :: 0 <= m < |s.mappers| ==> s.mappers[m].link == NEW_LINK.(reports := [Done])
    ensures forall r :: 0 <= r < |s.reducers| ==> s.reducers[r].link == NEW_LINK && Get(s.reducers[r].wc, w) == 0
  {
    hide Reachable, Leads, NoEmptyWords, Due;
    o := Fresh(files, resets);
    FreshStart(files, rules, resets);
    var u := FeedAll(o, o, rules);
    assert GrownReducer(o, u, 0) && GrownReducer(o, u, 1);
    NotRouted(files, Cursors(o), w);
    NotRouted(files, Cursors(u), w);
    FreeKept(o, u, Finishing, rules);
    var v := FinishFrom(o, u, rules, 0);
    var x := StrikeReducer(o, v, rules, Route(w));
    assert Connected(x.reducers) == [true, true];
    s := StrikeFrom(o, x, rules, 0);
  }

  // ------------------------------------------------------------ recoveries that keep the last checkpoint

  /** What is left of an unfinished checkpoint 1 in the next epoch: reducer `q` has an empty file that it reported. */
  ghost predicate Stale(s: System, q: nat) {
    && |s.reducers| == REDUCERS && q < REDUCERS
    && 1 in s.reducers[q].saved && s.reducers[q].saved[1].wc == map[] && |s.reducers[q].saved[1].seen| == |s.mappers|
    && s.reducers[q].link.lastCp == 1
  }

  const MARKED := Link([], [], 1, 0, false, false)

  /** Checkpoint 1 is taken by all mappers and by reducer `q` before anything is counted. */
  lemma HalfCheckpoint(files: seq<seq<seq<string>>>, rules: Rules, q: nat) returns (o: System, s: System)
    requires NoEmptyWords(files) && files != [] && q < REDUCERS && rules.crashes
    ensures Reachable(o, rules.may) && Leads(o, s, rules) && Ready(s)
    ensures s.files == files && s.c == Coordinator(Cp, 0, 1, true, -1, false, false)
    ensures Stale(s, q) && s.reducers[q].link == MARKED && s.reducers[1 - q].link == NEW_LINK
    ensures forall m :: 0 <= m < |s.mappers| ==> s.mappers[m].link == MARKED && s.channels[m][q] == []
  {
    hide Reachable, Leads, NoEmptyWords, Intact, Settled;
    o := Fresh(files, false);
    FreshStart(files, rules, false);
    assert o.reducers[0].link.lastCp != 1;
    var u := MarkRound(o, o, rules);
    s := AlignOne(o, u, rules, q, 1);
    assert s.reducers[1 - q].link.lastCp != 1;
    RoundGoesOn(s);
  }

  /** The other reducer dies, and the system is to roll back to the beginning. */
  lemma HalfStruck(files: seq<seq<seq<string>>>, rules: Rules, q: nat) returns (o: System, s: System)
    requires NoEmptyWords(files) && files != [] && q < REDUCERS && rules.crashes
    ensures Reachable(o, rules.may) && Leads(o, s, rules)
    ensures Shape(s) && s.files == files && s.c == Coordinator(Cp, 0, 1, true, -1, true, false)
    ensures Recoverable(s, -1) && Stale(s, q) && s.reducers[1 - q].link == NEW_LINK
    ensures forall m :: 0 <= m < |s.mappers| ==> s.mappers[m].link == MARKED
  {
    hide Reachable, Leads, NoEmptyWords, RollbackId, LastCps;
    var u;
    o, u := HalfCheckpoint(files, rules, q);
    s := StrikeReducer(o, u, rules, 1 - q);
    NoneCompleted(s, 1 - q);
  }

  lemma NoneCompleted(s: System, r: nat)
    requires r < |s.reducers| && s.reducers[r].link.lastCp == 0
    ensures RollbackId(LastCps(s)) == -1
  {
    hide Least;
    assert LastCps(s)[|s.mappers| + r] == 0;
    LeastIsLeast(LastCps(s));
  }

  const QUIET := Link([], [], 1, 1, false, false)

  /** In the new epoch everything is counted. */
  lemma StaleFed(files: seq<seq<seq<string>>>, rules: Rules, w: string) returns (o: System, s: System)
    requires NoEmptyWords(files) && files != [] && rules.crashes
    ensures Reachable(o, rules.may) && Leads(o, s, rules) && Resting(s) && s.files == files
    ensures s.c == Coordinator(Cp, 1, 1, false, -1, false, false) && Stale(s, Route(w))
    ensures forall m :: 0 <= m < |s.mappers| ==>
      m < |s.files| && s.mappers[m].cursor == |s.files[m]| && s.mappers[m].link == QUIET
    ensures s.reducers[Route(w)].link == QUIET
    ensures var b := s.reducers[1 - Route(w)]; b.link == QUIET.(lastCp := 0) && Get(b.wc, w) == 0
  {
    hide Reachable, Leads, NoEmptyWords, Due, RollbackId, LastCps;
    var q := Route(w);
    var u;
    o, u := HalfStruck(files, rules, q);
    var v := RecoverAll(o, u, rules, -1);
    s := FeedAll(o, v, rules);
    assert GrownReducer(v, s, 0) && GrownReducer(v, s, 1);
    NotRouted(files, Cursors(v), w);
    NotRouted(files, Cursors(s), w);
  }

  /**
   * Checkpoint 1 is completed, with the cursors at the ends of the streams and the stale file of the reducer that `w`
   * is routed to.
   */
  ghost predicate StaleRound(t: System, w: string) {
    var q := Route(w);
    && Shape(t) && Stale(t, q) && t.c == Coordinator(Cp, 1, 2, false, -1, false, false)
    && (forall m :: 0 <= m < |t.mappers| ==>
          var a := t.mappers[m];
          && a.up && a.link == QUIET && 1 in a.saved && a.saved[1].cursor == |t.files[m]|
          && t.channels[m][1 - q] == [])
    && (forall r :: 0 <= r < REDUCERS ==>
          var b := t.reducers[r];
          b.up && b.link == QUIET && 1 in b.saved && |b.saved[1].seen| == |t.mappers|)
    && Get(t.reducers[1 - q].saved[1].wc, w) == 0
  }

  /** The reducer with the stale file need not take checkpoint 1 again for it to be completed. */
  lemma StaleCompletes(files: seq<seq<seq<string>>>, rules: Rules, w: string) returns (o: System, t: System)
    requires NoEmptyWords(files) && files != [] && rules.crashes
    ensures Reachable(o, rules.may) && Leads(o, t, rules) && t.files == files && StaleRound(t, w)
  {
    hide Reachable, Leads, NoEmptyWords, Intact, Settled;
    var s;
    o, s := StaleFed(files, rules, w);
    var q := Route(w);
    assert s.reducers[1 - q].link.lastCp != 1;
    var u := MarkRound(o, s, rules);
    var h := AlignOne(o, u, rules, 1 - q, 1);
    RoundCompletes(h);
    t := Settled(h);
  }

  /** The completed checkpoint is no consistent cut: the stale file lacks words before the cut. */
  lemma StaleCheckpoint(files: seq<seq<seq<string>>>, may: set<Kind>, m: nat, w: string) returns (t: System)
    requires NoEmptyWords(files) && Contains(files, m, w)
    ensures Reachable(t, may) && t.files == files && !t.c.resets && Completed(t, 1)
    ensures !(Written(t, 1) && Consistent(t, 1))
  {
    hide Reachable, Leads, NoEmptyWords, Due, Contains, Consistent, Written;
    Within(files, m, w);
    DueAgain(files, m, w);
    var o;
    o, t := StaleCompletes(files, Rules(may, true), w);
    ReachOn(o, t, Rules(may, true), may);
    WrongFile(t, 1, w, EndsOf(files));
  }

  lemma StaleRecoverable(s: System, t: System, w: string)
    requires StaleRound(s, w) && Shape(t) && SameButConns(s.mappers, t.mappers)
    requires t == s.(mappers := t.mappers, reducers := s.reducers[Route(w) := RestartedReducer(s.reducers[Route(w)])],
                     channels := Reconnected(s.channels, Route(w)), c := s.c.(alarm := true))
    ensures Recoverable(t, 1)
  {
    hide RollbackId, LastCps;
    AllAtOne(t);
  }

  /** Rolling back to that checkpoint, the system loses the words for good. */
  lemma StaleExit(files: seq<seq<seq<string>>>, may: set<Kind>, m: nat, w: string) returns (t: System)
    requires NoEmptyWords(files) && Contains(files, m, w)
    ensures Reachable(t, may) && t.files == files && !t.c.resets && t.c.phase == Exiting && !CountedOnce(t)
  {
    hide Reachable, Leads, NoEmptyWords, Due, Contains, CountedOnce, RollbackId, LastCps, Recoverable;
    Within(files, m, w);
    DueAgain(files, m, w);
    NotRouted(files, EndsOf(files), w);
    var rules := Rules(may, true);
    var q := Route(w);
    var o, s := StaleCompletes(files, rules, w);
    var u := StrikeReducer(o, s, rules, q);
    StaleRecoverable(s, u, w);
    var v := RecoverAll(o, u, rules, 1);
    assert v.reducers[0].link.lastCp != v.c.nextCp;
    t := Exit(o, v, rules);
    ReachOn(o, t, rules, may);
    WrongMerge(t, w);
  }

  // ------------------------------------------------------------ the exact condition

  /**
   * Over all files that contain a word and all kinds of steps that mappers restarted in the first epoch may take before
   * the rollback: completed checkpoints are always consistent if and only if no such mapper takes the checkpoint of a
   * round, and every run counts exactly once if and only if none takes any checkpoint; and in either case recovery
   * acknowledgements must reset the last checkpoint. What else restarted mappers do makes no difference.
   */
  lemma GuaranteedExactly(files: seq<seq<seq<string>>>, m: nat, w: string, may: set<Kind>, resets: bool)
    requires NoEmptyWords(files) && Contains(files, m, w)
    ensures AlwaysConsistent(files, may, resets) <==> RoundCp !in may && resets
    ensures AlwaysOnce(files, may, resets) <==> RoundCp !in may && FinalCp !in may && resets
  {
    hide Reachable, NoEmptyWords, Contains, Consistent, Written, CountedOnce, Completed;
    ConsistentExactly(files, m, w, may, resets);
    OnceExactly(files, m, w, may, resets);
  }

  lemma ConsistentExactly(files: seq<seq<seq<string>>>, m: nat, w: string, may: set<Kind>, resets: bool)
    requires NoEmptyWords(files) && Contains(files, m, w)
    ensures AlwaysConsistent(files, may, resets) <==> RoundCp !in may && resets
  {
    hide Reachable, NoEmptyWords, Contains, Consistent, Written, Completed;
    if !resets {
      var s := StaleCheckpoint(files, may, m, w);
    } else if RoundCp in may {
      var s := HastyCheckpoint(files, may, resets, m, w);
    } else {
      forall s, k | Reachable(s, may) && s.files == files && s.c.resets == resets && Completed(s, k)
        ensures Written(s, k) && Consistent(s, k)
      {
        CompletedIsConsistent(s, k, may);
      }
    }
  }

  lemma OnceExactly(files: seq<seq<seq<string>>>, m: nat, w: string, may: set<Kind>, resets: bool)
    requires NoEmptyWords(files) && Contains(files, m, w)
    ensures AlwaysOnce(files, may, resets) <==> RoundCp !in may && FinalCp !in may && resets
  {
    hide Reachable, NoEmptyWords, Contains, CountedOnce;
    if !resets {
      var s := StaleExit(files, may, m, w);
    } else if RoundCp in may {
      var s := HastyExit(files, may, resets, m, w);
    } else if FinalCp in may {
      var s := LateExit(files, may, resets, m, w);
    } else {
      forall s | Reachable(s, may) && s.files == files && s.c.resets == resets && s.c.phase == Exiting
        ensures CountedOnce(s)
      {
        CountsOnce(s, may);
      }
    }
  }

  lemma CountsOnce(s: System, may: set<Kind>)
    requires Reachable(s, may) && RoundCp !in may && FinalCp !in may && s.c.resets && s.c.phase == Exiting
    ensures CountedOnce(s)
  {
    hide Reachable;
    ExactlyOnce(s, may);
  }
}
