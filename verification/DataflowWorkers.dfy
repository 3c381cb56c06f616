/** What each step does to one worker and to the coordinator's record of it. */
module DataflowWorkers {
  import opened WordCount
  import opened Dataflow
  import opened DataflowInv
  import opened DataflowBase

  // ------------------------------------------------------------ the coordinator's record

  lemma {:induction false} CurrentAppend(reports: seq<Report>, recovered: bool, e: nat, x: Report)
    ensures Current(reports + [x], recovered, e)
         == Current(reports, recovered, e) + if recovered || RecoveryAck(e) in reports then [x] else []
  {
    if !recovered && reports != [] {
      assert (reports + [x])[1..] == reports[1..] + [x];
      assert reports == [reports[0]] + reports[1..];
      CurrentAppend(reports[1..], reports[0] == RecoveryAck(e), e, x);
    }
  }

  lemma {:induction false} CurrentEmpty(reports: seq<Report>, e: nat)
    requires RecoveryAck(e) !in reports
    ensures Current(reports, false, e) == []
  {
    if reports != [] {
      CurrentEmpty(reports[1..], e);
    }
  }

  /** The worker reports; its stage and its checkpoints may have changed in the same step. */
  lemma LinkTells(l: Link, x: Report, present: bool, present': bool, tags: iset<nat>, tags': iset<nat>,
                  atEnd: bool, atEnd': bool, e: nat, next: nat)
    requires LinkOk(l, present, tags, atEnd, e, next)
    requires tags <= tags' && (atEnd ==> atEnd') && (present ==> present')
    requires if x.RecoveryAck? then x.rid <= e && !present && (x.rid == e ==> present')
             else present' == present && (present ==> ReportOk(x, tags', atEnd'))
    ensures LinkOk(Told(l, x), present', tags', atEnd', e, next)
  {
    CurrentAppend(l.reports, l.recovered == e, e, x);
    forall y | y in Current(l.reports + [x], l.recovered == e, e) ensures ReportOk(y, tags', atEnd') {
      if y in Current(l.reports, l.recovered == e, e) {
        assert ReportOk(y, tags, atEnd);
      } else {
        assert Recovering(l, e) && y == x;
      }
    }
  }

  /** The worker moves without a word. */
  lemma LinkKeeps(l: Link, l': Link, present: bool, present': bool, tags: iset<nat>, tags': iset<nat>,
                  atEnd: bool, atEnd': bool, e: nat, next: nat)
    requires LinkOk(l, present, tags, atEnd, e, next)
    requires l' == l.(cmds := l'.cmds)
    requires tags <= tags' && (atEnd ==> atEnd') && (present ==> present')
    ensures LinkOk(l', present', tags', atEnd', e, next)
  {
    forall y | y in Current(l'.reports, l'.recovered == e, e) ensures ReportOk(y, tags', atEnd') {
      assert ReportOk(y, tags, atEnd);
    }
  }

  /** The coordinator reads a report: what it then believes is true. */
  lemma LinkHears(l: Link, c: Coordinator, present: bool, tags: iset<nat>, atEnd: bool)
    requires LinkOk(l, present, tags, atEnd, c.epoch, c.nextCp) && l.reports != []
    requires FromOk(c.base, c.nextCp) && 1 <= c.nextCp && c.resets
    requires l.recovered < c.epoch ==> Min(c.nextCp - 1, FIRST_GUESS) <= RestoredId(c.base)
    ensures LinkOk(Heard(l, c), present, tags, atEnd, c.epoch, c.nextCp)
    ensures Heard(l, c).lastCp == c.nextCp ==> l.lastCp == c.nextCp || c.phase == Cp
  {
    var x, rest := l.reports[0], l.reports[1..];
    var l' := Heard(l, c);
    assert l.reports == [x] + rest;
    if l.recovered == c.epoch {
      assert x in Current(l.reports, true, c.epoch) && ReportOk(x, tags, atEnd);
    }
    forall y | y in Current(rest, l'.recovered == c.epoch, c.epoch) ensures ReportOk(y, tags, atEnd) {
      assert y in Current(l.reports, l.recovered == c.epoch, c.epoch);
    }
    assert Recovering(l', c.epoch) ==> Recovering(l, c.epoch);
    if l.reports[0] == RecoveryAck(c.epoch) {
      forall j | 0 <= j < |rest| ensures rest[j] != RecoveryAck(c.epoch) {
        assert l.reports[j + 1] == rest[j];
      }
    }
  }

  lemma LinkNewEpoch(l: Link, l': Link, present: bool, saved: set<nat>, atEnd': bool, c: Coordinator)
    requires LinkBase(l, present, saved, c) && l' == l.(cmds := l'.cmds)
    ensures LinkOk(l', false, iset{}, atEnd', c.epoch + 1, c.nextCp) && l'.recovered <= c.epoch
  {
    CurrentEmpty(l.reports, c.epoch + 1);
  }

  lemma LinkNextRound(l: Link, present: bool, tags: iset<nat>, atEnd: bool, e: nat, next: nat)
    requires LinkOk(l, present, tags, atEnd, e, next) && l.lastCp == next
    ensures LinkOk(l, present, tags, atEnd, e, next + 1)
  {
  }

  lemma LinkReached(l: Link, present: bool, tags: iset<nat>, atEnd: bool, e: nat, next: nat)
    requires LinkOk(l, present, tags, atEnd, e, next)
    ensures l.recovered == e ==> present
    ensures l.recovered <= e
  {
  }

  /** Nothing current is on its way from a worker that has not joined the epoch. */
  lemma LinkOfLaggard(l: Link, tags: iset<nat>, atEnd: bool, atEnd': bool, e: nat, next: nat)
    requires LinkOk(l, false, tags, atEnd, e, next)
    ensures LinkOk(l, false, tags, atEnd', e, next)
  {
    CurrentEmpty(l.reports, e);
  }

  // ------------------------------------------------------------ one mapper

  lemma MapperMoves(f: seq<seq<string>>, a: Mapper, c: Coordinator, cursor: nat, up: bool, conns: seq<bool>)
    requires MapperOk(f, a, c)
    requires a.cursor <= cursor <= |f|
    ensures MapperOk(f, a.(cursor := cursor, up := up, conns := conns), c)
  {
    hide LinkOk;
    var a' := a.(cursor := cursor, up := up, conns := conns);
    assert TagsM(a', c.epoch) == TagsM(a, c.epoch);
    LinkKeeps(a.link, a.link, a.stage != Waiting, a.stage != Waiting, TagsM(a, c.epoch), TagsM(a', c.epoch),
              AtEnd(f, a), AtEnd(f, a'), c.epoch, c.nextCp);
    forall k: nat ensures HasM(a', k, c.epoch) <==> HasM(a, k, c.epoch) {
    }
    forall i | 0 <= i < |a'.link.cmds| ensures MapperCmdOk(a', i, c) {
      assert MapperCmdOk(a, i, c);
    }
  }

  lemma MapperFinishes(f: seq<seq<string>>, a: Mapper, c: Coordinator)
    requires MapperOk(f, a, c) && a.cursor == |f|
    ensures MapperOk(f, a.(link := Told(a.link, Done)), c)
  {
    hide LinkOk;
    var a' := a.(link := Told(a.link, Done));
    assert TagsM(a', c.epoch) == TagsM(a, c.epoch);
    LinkTells(a.link, Done, a.stage != Waiting, a.stage != Waiting, TagsM(a, c.epoch), TagsM(a', c.epoch),
              AtEnd(f, a), AtEnd(f, a), c.epoch, c.nextCp);
    forall k: nat ensures HasM(a', k, c.epoch) <==> HasM(a, k, c.epoch) {
    }
    forall i | 0 <= i < |a'.link.cmds| ensures MapperCmdOk(a', i, c) {
      assert MapperCmdOk(a, i, c);
    }
  }

  lemma MapperIgnores(f: seq<seq<string>>, a: Mapper, c: Coordinator)
    requires MapperOk(f, a, c) && a.link.cmds != []
    ensures MapperOk(f, a.(link := Pop(a.link)), c)
  {
    hide LinkOk;
    var a' := a.(link := Pop(a.link));
    assert TagsM(a', c.epoch) == TagsM(a, c.epoch);
    LinkKeeps(a.link, a'.link, a.stage != Waiting, a.stage != Waiting, TagsM(a, c.epoch), TagsM(a', c.epoch),
              AtEnd(f, a), AtEnd(f, a), c.epoch, c.nextCp);
    forall k: nat ensures HasM(a', k, c.epoch) <==> HasM(a, k, c.epoch) {
    }
    forall i | 0 <= i < |a'.link.cmds| ensures MapperCmdOk(a', i, c) {
      assert MapperCmdOk(a, i + 1, c);
      assert forall j :: 0 <= j < |a'.link.cmds| ==> a'.link.cmds[j] == a.link.cmds[j + 1];
    }
  }

  lemma MapperCheckpoints(f: seq<seq<string>>, a: Mapper, c: Coordinator, sound: bool, acked: bool)
    requires MapperOk(f, a, c) && a.link.cmds != [] && a.link.cmds[0].Checkpoint? && a.link.cmds[0].rid == a.rid
    requires a.stage != Out
    ensures MapperOk(f, Checkpointed(a, sound, acked), c)
  {
    hide LinkOk;
    var a' := Checkpointed(a, sound, acked);
    var k0 := a.link.cmds[0].cp;
    var here := a.stage != Waiting;
    assert MapperCmdOk(a, 0, c);
    forall k: nat ensures HasM(a', k, c.epoch) <==> HasM(a, k, c.epoch) || (k == k0 && here) {
    }
    assert TagsM(a, c.epoch) <= TagsM(a', c.epoch);
    if acked {
      LinkKeeps(a.link, Pop(a.link), here, here, TagsM(a, c.epoch), TagsM(a, c.epoch), AtEnd(f, a), AtEnd(f, a),
                c.epoch, c.nextCp);
      LinkTells(Pop(a.link), Ack(k0), here, here, TagsM(a, c.epoch), TagsM(a', c.epoch), AtEnd(f, a), AtEnd(f, a'),
                c.epoch, c.nextCp);
    } else {
      LinkKeeps(a.link, a'.link, here, here, TagsM(a, c.epoch), TagsM(a', c.epoch), AtEnd(f, a), AtEnd(f, a'),
                c.epoch, c.nextCp);
    }
    forall i | 0 <= i < |a'.link.cmds| ensures MapperCmdOk(a', i, c) {
      assert a'.link.cmds[i] == a.link.cmds[i + 1] && MapperCmdOk(a, i + 1, c);
      assert forall j :: 0 <= j < |a'.link.cmds| ==> a'.link.cmds[j] == a.link.cmds[j + 1];
    }
  }

  lemma MapperRecovers(f: seq<seq<string>>, a: Mapper, c: Coordinator, conns: seq<bool>)
    requires MapperOk(f, a, c) && a.link.cmds != [] && a.link.cmds[0].Recover?
    ensures var rid, from := a.link.cmds[0].rid, a.link.cmds[0].from;
      && a.stage == Waiting && 1 <= rid <= c.epoch && SavedCursor(a, from) <= |f| && (rid == c.epoch ==> from == c.base)
      && MapperOk(f, a.(cursor := SavedCursor(a, from), rid := rid, conns := conns,
                        stage := Joining(a.stage, rid, c.epoch), link := Told(Pop(a.link), RecoveryAck(rid))), c)
  {
    hide LinkOk;
    var rid, from := a.link.cmds[0].rid, a.link.cmds[0].from;
    var a' := a.(cursor := SavedCursor(a, from), rid := rid, conns := conns, stage := Joining(a.stage, rid, c.epoch),
                 link := Told(Pop(a.link), RecoveryAck(rid)));
    assert MapperCmdOk(a, 0, c);
    forall k: nat ensures !HasM(a, k, c.epoch) && !HasM(a', k, c.epoch) {
    }
    assert TagsM(a, c.epoch) == TagsM(a', c.epoch) == iset{};
    LinkReached(a.link, false, iset{}, AtEnd(f, a), c.epoch, c.nextCp);
    LinkOfLaggard(a.link, iset{}, AtEnd(f, a), AtEnd(f, a'), c.epoch, c.nextCp);
    LinkKeeps(a.link, Pop(a.link), false, false, iset{}, iset{}, AtEnd(f, a'), AtEnd(f, a'), c.epoch, c.nextCp);
    LinkTells(Pop(a.link), RecoveryAck(rid), false, a'.stage != Waiting, iset{}, iset{}, AtEnd(f, a'), AtEnd(f, a'),
              c.epoch, c.nextCp);
    forall i | 0 <= i < |a'.link.cmds| ensures MapperCmdOk(a', i, c) {
      assert a'.link.cmds[i] == a.link.cmds[i + 1] && MapperCmdOk(a, i + 1, c);
    }
  }

  lemma MapperRestarted(f: seq<seq<string>>, a: Mapper, c: Coordinator, reducers: seq<Reducer>)
    requires MapperOk(f, a, c)
    ensures MapperOk(f, RestartedMapper(a, reducers), c)
  {
    hide LinkOk;
    var a' := RestartedMapper(a, reducers);
    assert TagsM(a', c.epoch) == TagsM(a, c.epoch);
    LinkKeeps(a.link, a'.link, a.stage != Waiting, a'.stage != Waiting, TagsM(a, c.epoch), TagsM(a', c.epoch),
              AtEnd(f, a), AtEnd(f, a'), c.epoch, c.nextCp);
    forall k: nat ensures HasM(a', k, c.epoch) <==> HasM(a, k, c.epoch) {
    }
  }

  lemma MapperHeard(f: seq<seq<string>>, a: Mapper, c: Coordinator)
    requires MapperOk(f, a, c) && a.link.reports != []
    requires FromOk(c.base, c.nextCp) && 1 <= c.nextCp && c.resets
    requires a.link.recovered < c.epoch ==> Min(c.nextCp - 1, FIRST_GUESS) <= RestoredId(c.base)
    ensures MapperOk(f, a.(link := Heard(a.link, c)), c)
  {
    hide LinkOk;
    var a' := a.(link := Heard(a.link, c));
    assert TagsM(a', c.epoch) == TagsM(a, c.epoch);
    LinkHears(a.link, c, a.stage != Waiting, TagsM(a, c.epoch), AtEnd(f, a));
    forall k: nat ensures HasM(a', k, c.epoch) <==> HasM(a, k, c.epoch) {
    }
    forall i | 0 <= i < |a'.link.cmds| ensures MapperCmdOk(a', i, c) {
      assert MapperCmdOk(a, i, c);
    }
  }

  /** The coordinator sends a command, and its own state changes with it. */
  lemma MapperCommanded(f: seq<seq<string>>, a: Mapper, cmd: Cmd, c: Coordinator, c': Coordinator)
    requires MapperOk(f, a, c)
    requires c' == c.(phase := c'.phase, asked := c'.asked)
    requires
      || (cmd == Checkpoint(c.nextCp, c.epoch) && 1 <= c.nextCp
          && c.phase == c'.phase == Cp && !c.asked && c'.asked)
      || (cmd == Checkpoint(0, c.epoch) && 1 <= c.nextCp
          && c.phase == Cp && c'.phase == LastCp && a.link.done && c'.asked == c.asked)
      || (cmd == Recover(c.epoch, c.base) && FromOk(c.base, c.nextCp)
          && c.phase == RecoverReducers && c'.phase == RecoverMappers && c'.asked == c.asked)
    ensures MapperOk(f, a.(link := a.link.(cmds := a.link.cmds + [cmd])), c')
  {
    hide Current;
    var a' := a.(link := a.link.(cmds := a.link.cmds + [cmd]));
    assert TagsM(a', c.epoch) == TagsM(a, c.epoch);
    LinkKeeps(a.link, a'.link, a.stage != Waiting, a.stage != Waiting, TagsM(a, c.epoch), TagsM(a', c.epoch),
              AtEnd(f, a), AtEnd(f, a), c.epoch, c.nextCp);
    forall k: nat ensures HasM(a', k, c.epoch) <==> HasM(a, k, c.epoch) {
    }
    forall i | 0 <= i < |a.link.cmds| ensures MapperCmdOk(a', i, c') && (cmd.Checkpoint? ==> a.link.cmds[i] != cmd) {
      assert MapperCmdOk(a, i, c) && a'.link.cmds[i] == a.link.cmds[i];
    }
    assert MapperCmdOk(a', |a.link.cmds|, c');
  }

  /** The coordinator changes its phase without a command. */
  lemma MapperPhase(f: seq<seq<string>>, a: Mapper, c: Coordinator, c': Coordinator)
    requires MapperOk(f, a, c)
    requires c' == c.(phase := c'.phase)
    requires
      || (c.phase == RecoverMappers && c'.phase == Cp && a.link.recovered == c.epoch)
      || (c.phase == LastCp && c'.phase == Exiting && a.link.lastDone)
    ensures MapperOk(f, a, c')
  {
    hide Current;
    forall i | 0 <= i < |a.link.cmds| ensures MapperCmdOk(a, i, c') {
      assert MapperCmdOk(a, i, c);
    }
  }

  lemma MapperNextRound(f: seq<seq<string>>, a: Mapper, c: Coordinator)
    requires MapperOk(f, a, c) && c.phase == Cp && a.link.lastCp == c.nextCp && 1 <= c.nextCp
    ensures MapperOk(f, a, c.(nextCp := c.nextCp + 1, asked := false))
  {
    hide Current;
    LinkNextRound(a.link, a.stage != Waiting, TagsM(a, c.epoch), AtEnd(f, a), c.epoch, c.nextCp);
    assert HasM(a, c.nextCp, c.epoch);
    assert a.link.cmds != [] ==> MapperCmdOk(a, 0, c);
  }

  /** No command is about another checkpoint than the current round's or the final one. */
  ghost predicate TidyCmds(a: Mapper, next: nat) {
    forall i :: 0 <= i < |a.link.cmds| && a.link.cmds[i].Checkpoint? ==>
      a.link.cmds[i].cp == 0 || a.link.cmds[i].cp == next
  }

  lemma MapperNewEpoch(f: seq<seq<string>>, a: Mapper, c: Coordinator, c': Coordinator)
    requires MapperBase(f, a, c) && TidyCmds(a, c.nextCp)
    requires c'.phase == RecoverReducers && c'.epoch == c.epoch + 1 && c'.nextCp == c.nextCp
    ensures MapperOk(f, a.(stage := Waiting), c')
  {
    hide LinkOk, LinkBase;
    var a' := a.(stage := Waiting);
    forall k: nat ensures !HasM(a', k, c'.epoch) {
    }
    assert TagsM(a', c'.epoch) == iset{};
    LinkNewEpoch(a.link, a.link, a.stage != Waiting, a.saved.Keys, AtEnd(f, a'), c);
    forall i | 0 <= i < |a'.link.cmds| ensures MapperCmdOk(a', i, c') {
      assert MapperCmdBase(a, i, c);
    }
  }

  // ------------------------------------------------------------ one reducer

  lemma ReducerSame(b: Reducer, b': Reducer, mappers: nat, c: Coordinator)
    requires ReducerOk(b, mappers, c)
    requires b' == b.(up := b'.up, wc := b'.wc, seen := b'.seen) && |b'.seen| == mappers && Sums(b'.wc, b'.seen)
    ensures ReducerOk(b', mappers, c)
  {
    hide LinkOk, Sums;
    assert TagsR(b', c.epoch) == TagsR(b, c.epoch);
    forall k: nat ensures HasR(b', k, c.epoch) <==> HasR(b, k, c.epoch) {
    }
    forall i | 0 <= i < |b'.link.cmds| ensures ReducerCmdOk(b', i, c) {
      assert ReducerCmdOk(b, i, c);
    }
  }

  /** The reducer writes checkpoint `k` and acknowledges it. */
  lemma ReducerCheckpoints(b: Reducer, mappers: nat, c: Coordinator, k: nat)
    requires ReducerOk(b, mappers, c) && b.stage != Out
    ensures ReducerOk(b.(saved := b.saved[k := ReducerCp(b.wc, b.seen, b.rid)], link := Told(b.link, Ack(k))), mappers,
                      c)
  {
    hide LinkOk, Sums;
    var b' := b.(saved := b.saved[k := ReducerCp(b.wc, b.seen, b.rid)], link := Told(b.link, Ack(k)));
    forall j: nat ensures HasR(b', j, c.epoch) <==> (if j == k then b.rid == c.epoch else HasR(b, j, c.epoch)) {
    }
    ReducerTags(b, b', c.epoch);
    LinkTells(b.link, Ack(k), b.stage != Waiting, b.stage != Waiting, TagsR(b, c.epoch), TagsR(b', c.epoch),
              true, true, c.epoch, c.nextCp);
    forall i | 0 <= i < |b'.link.cmds| ensures ReducerCmdOk(b', i, c) {
      assert ReducerCmdOk(b, i, c);
    }
  }

  lemma ReducerTags(b: Reducer, b': Reducer, e: nat)
    requires forall k :: HasR(b, k, e) ==> HasR(b', k, e)
    ensures TagsR(b, e) <= TagsR(b', e)
  {
  }

  lemma ReducerRecovers(b: Reducer, mappers: nat, c: Coordinator)
    requires ReducerOk(b, mappers, c) && b.link.cmds != [] && b.link.cmds[0].Recover?
    ensures var rid, from := b.link.cmds[0].rid, b.link.cmds[0].from;
      && b.stage == Waiting && rid <= c.epoch && FromOk(from, c.nextCp)
      && (rid == c.epoch ==> from == c.base && c.phase == RecoverReducers)
      && (forall k :: !HasR(b, k, c.epoch))
      && ReducerOk(Restored(b, rid, from, mappers, c.epoch), mappers, c)
  {
    hide LinkOk, Sums;
    var rid, from := b.link.cmds[0].rid, b.link.cmds[0].from;
    var b' := Restored(b, rid, from, mappers, c.epoch);
    assert ReducerCmdOk(b, 0, c);
    EmptySums(mappers);
    forall k: nat ensures !HasR(b, k, c.epoch) && !HasR(b', k, c.epoch) {
    }
    assert TagsR(b, c.epoch) == TagsR(b', c.epoch) == iset{};
    LinkKeeps(b.link, Pop(b.link), false, false, iset{}, iset{}, true, true, c.epoch, c.nextCp);
    LinkTells(Pop(b.link), RecoveryAck(rid), false, b'.stage != Waiting, iset{}, iset{}, true, true, c.epoch, c.nextCp);
    forall i | 0 <= i < |b'.link.cmds| ensures ReducerCmdOk(b', i, c) {
      assert b'.link.cmds[i] == b.link.cmds[i + 1] && ReducerCmdOk(b, i + 1, c);
    }
  }

  lemma ReducerRestarted(b: Reducer, mappers: nat, c: Coordinator)
    requires ReducerOk(b, mappers, c)
    ensures ReducerOk(RestartedReducer(b), mappers, c)
  {
    hide LinkOk, Sums;
    var b' := RestartedReducer(b);
    EmptySums(mappers);
    assert TagsR(b', c.epoch) == TagsR(b, c.epoch);
    LinkKeeps(b.link, b'.link, b.stage != Waiting, b'.stage != Waiting, TagsR(b, c.epoch), TagsR(b', c.epoch), true,
              true, c.epoch, c.nextCp);
    forall k: nat ensures HasR(b', k, c.epoch) <==> HasR(b, k, c.epoch) {
    }
  }

  lemma ReducerHeard(b: Reducer, mappers: nat, c: Coordinator)
    requires ReducerOk(b, mappers, c) && b.link.reports != []
    requires FromOk(c.base, c.nextCp) && 1 <= c.nextCp && c.resets
    requires b.link.recovered < c.epoch ==> Min(c.nextCp - 1, FIRST_GUESS) <= RestoredId(c.base)
    ensures ReducerOk(b.(link := Heard(b.link, c)), mappers, c)
  {
    hide LinkOk, Sums;
    var b' := b.(link := Heard(b.link, c));
    assert TagsR(b', c.epoch) == TagsR(b, c.epoch);
    LinkHears(b.link, c, b.stage != Waiting, TagsR(b, c.epoch), true);
    forall k: nat ensures HasR(b', k, c.epoch) <==> HasR(b, k, c.epoch) {
    }
    forall i | 0 <= i < |b'.link.cmds| ensures ReducerCmdOk(b', i, c) {
      assert ReducerCmdOk(b, i, c);
    }
  }

  /** The coordinator moves on, within the epoch and the round. */
  lemma ReducerPhase(b: Reducer, mappers: nat, c: Coordinator, c': Coordinator)
    requires ReducerOk(b, mappers, c)
    requires c' == c.(phase := c'.phase, asked := c'.asked)
    requires c'.phase == RecoverReducers ==> c.phase == RecoverReducers
    requires c.phase == RecoverReducers ==> b.link.recovered == c.epoch
    requires c'.phase == Exiting ==> c.phase == LastCp && b.link.lastDone
    ensures ReducerOk(b, mappers, c')
  {
    hide Current, Sums;
    assert b.link.cmds != [] ==> ReducerCmdOk(b, 0, c);
  }

  lemma ReducerNextRound(b: Reducer, mappers: nat, c: Coordinator)
    requires ReducerOk(b, mappers, c) && c.phase == Cp && b.link.lastCp == c.nextCp && 1 <= c.nextCp
    ensures ReducerOk(b, mappers, c.(nextCp := c.nextCp + 1, asked := false))
    ensures HasR(b, c.nextCp, c.epoch)
  {
    hide Current, Sums;
    LinkNextRound(b.link, b.stage != Waiting, TagsR(b, c.epoch), true, c.epoch, c.nextCp);
    assert HasR(b, c.nextCp, c.epoch);
    assert b.link.cmds != [] ==> ReducerCmdOk(b, 0, c);
  }

  lemma ReducerNewEpoch(b: Reducer, mappers: nat, c: Coordinator, c': Coordinator)
    requires ReducerBase(b, mappers, c)
    requires c'.phase == RecoverReducers && c'.epoch == c.epoch + 1 && c'.nextCp == c.nextCp
    requires FromOk(c'.base, c.nextCp)
    ensures ReducerOk(RalliedReducer(b, Recover(c'.epoch, c'.base)), mappers, c')
  {
    hide LinkOk, LinkBase, Sums;
    var b' := RalliedReducer(b, Recover(c'.epoch, c'.base));
    forall k: nat ensures !HasR(b', k, c'.epoch) {
    }
    assert TagsR(b', c'.epoch) == iset{};
    LinkNewEpoch(b.link, b'.link, b.stage != Waiting, b.saved.Keys, true, c);
    forall i | 0 <= i < |b'.link.cmds| ensures ReducerCmdOk(b', i, c') {
      if i < |b.link.cmds| {
        assert b'.link.cmds[i] == b.link.cmds[i] && ReducerCmdOk(b, i, c);
      }
    }
  }
}
