/** One Bayou server's storage: two logs, two states and two vectors, updated in place. */
module BayouStorage {
  import opened BayouLog

  // ------------------------------------------------------------ specification

  /** Everything a Storage object holds, as a value. */
  datatype Store = Store(
    c: VTime, f: VTime,
    clog: seq<Entry>, tlog: seq<Entry>,
    cst: string, tst: string)

  function InitStore(servers: set<string>): Store {
    Store(NewVector(servers), NewVector(servers), [], [], "", "")
  }

  /** What holds of every storage between two calls. */
  ghost predicate ValidStore(s: Store) {
    && Named(s.clog, s.c) && Named(s.tlog, s.c)
    && s.c == RaiseAll(NewVector(s.c.Keys), s.clog)
    && s.f == RaiseAll(s.c, s.tlog)
    && OriginOrdered(s.clog)
    && (forall e <- s.clog :: e.ltime.ts > 0)
    && Sorted(s.tlog)
    && (forall e <- s.tlog :: !LtimeEarlier(s.c, e.ltime))
    && s.cst == Replay(s.clog)
    && s.tst == Replay(s.clog + s.tlog)
  }

  /** The storage after `apply`, with both states replayed from scratch. */
  function Applied(s: Store, commits: seq<Entry>, tentatives: seq<Entry>): Store {
    var c := RaiseAll(s.c, commits);
    var f := RaiseAll(s.f, commits);
    var clog := s.clog + News(s.c, commits);
    var tlog := InsertAll(After(c, s.tlog), News(f, tentatives));
    Store(c, RaiseAll(f, tentatives), clog, tlog, Replay(clog), Replay(clog + tlog))
  }

  datatype Reply = Reply(committed: seq<Entry>, tentative: seq<Entry>) | AssertionError

  /** What a peer holding the vectors `c` and `f` is missing. */
  function Missing(s: Store, c: VTime, f: VTime): Reply {
    if VtimeEarlier(s.c, c) then Reply(After(c, s.clog), After(f, s.tlog))
    else if VtimeEarlier(c, s.c) then Reply([], After(f, s.tlog))
    else AssertionError
  }

  /** The invariants `chk_invariants` asserts follow, with the full meaning of both states. */
  lemma ChkInvariants(s: Store)
    requires ValidStore(s)
    ensures VtimeEarlier(s.f, s.c)
    ensures s.tlog == [] ==> s.f == s.c && s.cst == s.tst
    ensures s.tst == s.cst + Replay(s.tlog)
    ensures forall e <- s.clog :: LtimeEarlier(s.c, e.ltime) && e !in s.tlog
    ensures forall e <- s.tlog :: LtimeEarlier(s.f, e.ltime)
  {
    RaiseAllMax(NewVector(s.c.Keys), s.clog);
    RaiseAllMax(s.c, s.tlog);
    ReplayConcat(s.clog, s.tlog);
    assert s.tlog == [] ==> s.clog + s.tlog == s.clog;
  }

  lemma InitValid(servers: set<string>)
    ensures ValidStore(InitStore(servers))
  {
  }

  /** `apply` keeps the storage valid, whatever lists it is given. */
  lemma AppliedValid(s: Store, commits: seq<Entry>, tentatives: seq<Entry>)
    requires ValidStore(s) && Named(commits, s.c) && Named(tentatives, s.c)
    ensures ValidStore(Applied(s, commits, tentatives))
  {
    var r := Applied(s, commits, tentatives);
    AppliedCommits(s, commits);
    AppliedTentatives(s, commits, tentatives);
  }

  lemma AppliedCommits(s: Store, commits: seq<Entry>)
    requires ValidStore(s) && Named(commits, s.c)
    ensures var c := RaiseAll(s.c, commits);
            var clog := s.clog + News(s.c, commits);
            && Named(clog, c) && OriginOrdered(clog)
            && c == RaiseAll(NewVector(c.Keys), clog)
            && forall e <- clog :: e.ltime.ts > 0
  {
    var n := News(s.c, commits);
    ChkInvariants(s);
    NewsMembers(s.c, commits);
    RaiseAllNews(s.c, commits);
    RaiseAllConcat(NewVector(s.c.Keys), s.clog, n);
    RaiseAllMax(NewVector(s.c.Keys), s.clog);
    var clog := s.clog + n;
    forall i, j | 0 <= i < j < |clog| && clog[i].ltime.name == clog[j].ltime.name
      ensures clog[i].ltime.ts < clog[j].ltime.ts
    {
      if i < |s.clog| <= j {
        assert clog[i] in s.clog && clog[j] in n;
      }
    }
  }

  lemma AppliedTentatives(s: Store, commits: seq<Entry>, tentatives: seq<Entry>)
    requires ValidStore(s) && Named(commits, s.c) && Named(tentatives, s.c)
    ensures var r := Applied(s, commits, tentatives);
            && Named(r.tlog, r.c) && Sorted(r.tlog)
            && (forall e <- r.tlog :: !LtimeEarlier(r.c, e.ltime))
            && r.f == RaiseAll(r.c, r.tlog)
            && forall e :: e in r.tlog <==> e in After(r.c, s.tlog) || e in News(RaiseAll(s.f, commits), tentatives)
  {
    var r := Applied(s, commits, tentatives);
    var f := RaiseAll(s.f, commits);
    var kept := After(r.c, s.tlog);
    var news := News(f, tentatives);
    ChkInvariants(s);
    AfterMembers(r.c, s.tlog);
    AfterSorted(r.c, s.tlog);
    RaiseAllMax(s.f, commits);
    RaiseAllMax(s.c, commits);
    NewsMembers(f, tentatives);
    CommitsRaiseLess(s, commits);
    InsertAllSorted(kept, f, tentatives);
    forall e
      ensures e in r.tlog <==> e in kept || e in news
    {
      assert e in r.tlog <==> e in multiset(r.tlog);
    }
    FinalVectorTight(s, commits, tentatives);
  }

  /** After `apply` times never decrease along the tentative log, and equal times are in the order of the names. */
  lemma AppliedOrder(s: Store, commits: seq<Entry>, tentatives: seq<Entry>)
    requires ValidStore(s) && Named(commits, s.c) && Named(tentatives, s.c)
    ensures var log := Applied(s, commits, tentatives).tlog;
            forall i, j :: 0 <= i < j < |log| ==>
              && log[i].ltime.ts <= log[j].ltime.ts
              && (log[i].ltime.ts == log[j].ltime.ts ==>
                    var a, b := log[i].ltime.name, log[j].ltime.name;
                    a < b || exists k: nat :: SmallerAt(a, b, k))
  {
    AppliedTentatives(s, commits, tentatives);
    hide ValidStore, Applied, Sorted, SmallerAt;
    SortedIsByTime(Applied(s, commits, tentatives).tlog);
  }

  /**
   * Exactly what a storage holds after `apply`. A received write is lost when its list names a newer one of the same
   * origin before it, and an old tentative write when the commits jump over it; nothing else is.
   */
  lemma AppliedExactly(s: Store, commits: seq<Entry>, tentatives: seq<Entry>, e: Entry)
    requires ValidStore(s) && Named(commits, s.c) && Named(tentatives, s.c) && e.ltime.name in s.c
    ensures var r := Applied(s, commits, tentatives);
            && (e in r.clog <==> e in s.clog || (!LtimeEarlier(s.c, e.ltime) && InTurn(commits, e)))
            && (e in r.tlog <==>
                 || (e in s.tlog && !LtimeEarlier(r.c, e.ltime))
                 || (!LtimeEarlier(RaiseAll(s.f, commits), e.ltime) && InTurn(tentatives, e)))
  {
    hide InTurn, ValidStore, News;
    AppliedTentatives(s, commits, tentatives);
    StoreNames(s);
    NewsExactly(s.c, commits, e);
    NewsExactly(RaiseAll(s.f, commits), tentatives, e);
    AfterMembers(Applied(s, commits, tentatives).c, s.tlog);
  }

  lemma StoreNames(s: Store)
    requires ValidStore(s)
    ensures s.f.Keys == s.c.Keys
  {
  }

  lemma CommitsRaiseLess(s: Store, commits: seq<Entry>)
    requires ValidStore(s) && Named(commits, s.c)
    ensures VtimeEarlier(RaiseAll(s.f, commits), RaiseAll(s.c, commits))
  {
    ChkInvariants(s);
    RaiseAllKeepsOrder(s.c, s.f, commits);
  }

  lemma FinalVectorTight(s: Store, commits: seq<Entry>, tentatives: seq<Entry>)
    requires ValidStore(s) && Named(commits, s.c) && Named(tentatives, s.c)
    requires var r := Applied(s, commits, tentatives);
             forall e :: e in r.tlog <==> e in After(r.c, s.tlog) || e in News(RaiseAll(s.f, commits), tentatives)
    ensures var r := Applied(s, commits, tentatives); r.f == RaiseAll(r.c, r.tlog)
  {
    var r := Applied(s, commits, tentatives);
    var f := RaiseAll(s.f, commits);
    var news := News(f, tentatives);
    CommitsRaiseLess(s, commits);
    RaiseAllMax(f, tentatives);
    NewsMembers(f, tentatives);
    AfterMembers(r.c, s.tlog);
    RaiseAllMax(s.f, commits);
    ChkInvariants(s);
    forall n <- r.c.Keys
      ensures r.f[n] == r.c[n] || Attained(r.tlog, n, r.f[n])
    {
      FinalVectorAttained(s, commits, tentatives, n);
    }
    RaiseAllUnique(r.c, r.tlog, r.f);
  }

  lemma FinalVector(s: Store)
    requires ValidStore(s)
    ensures s.f == RaiseAll(s.c, s.tlog)
  {
  }

  lemma FinalVectorAttained(s: Store, commits: seq<Entry>, tentatives: seq<Entry>, n: string)
    requires ValidStore(s) && Named(commits, s.c) && Named(tentatives, s.c) && n in s.c
    requires var r := Applied(s, commits, tentatives);
             forall e :: e in r.tlog <==> e in After(r.c, s.tlog) || e in News(RaiseAll(s.f, commits), tentatives)
    ensures var r := Applied(s, commits, tentatives);
            r.f[n] == r.c[n] || Attained(r.tlog, n, r.f[n])
  {
    hide ValidStore, Sorted, OriginOrdered, InsertAll, Replay, After, News;
    var r := Applied(s, commits, tentatives);
    var f := RaiseAll(s.f, commits);
    assert s.f == RaiseAll(s.c, s.tlog) && s.f.Keys == s.c.Keys by {
      FinalVector(s);
    }
    CommitsRaiseLess(s, commits);
    RaiseAllNews(f, tentatives);
    RaiseAllIsMax(f, News(f, tentatives), n);
    RaiseAllIsMax(s.f, commits, n);
    RaiseAllIsMax(s.c, commits, n);
    RaiseAllIsMax(s.c, s.tlog, n);
    AfterMembers(r.c, s.tlog);
    if r.f[n] == f[n] && f[n] == s.f[n] && s.f[n] != s.c[n] {
      var e :| e in s.tlog && e.ltime == LogicalTime(n, s.f[n]);
      assert e in After(r.c, s.tlog) || LtimeEarlier(r.c, e.ltime);
    }
  }

  /** One fresh tentative write joins the tentative log; the committed half does not change. */
  lemma TentativeWrite(s: Store, e: Entry)
    requires ValidStore(s) && e.ltime.name in s.c && !LtimeEarlier(s.f, e.ltime)
    ensures var r := Applied(s, [], [e]);
            && ValidStore(r) && r.clog == s.clog && r.c == s.c && r.f == Raise(s.f, e.ltime)
            && forall d :: d in r.tlog <==> d in s.tlog || d == e
  {
    var r := Applied(s, [], [e]);
    AppliedValid(s, [], [e]);
    AppliedTentatives(s, [], [e]);
    AfterEverything(s.c, s.tlog);
    OneWrite(s.f, e);
    assert s.clog + [] == s.clog;
  }

  /** One fresh write at a storage without tentative writes is committed at the end of the log. */
  lemma CommittedWrite(s: Store, e: Entry)
    requires ValidStore(s) && s.tlog == [] && e.ltime.name in s.c && !LtimeEarlier(s.c, e.ltime)
    ensures var r := Applied(s, [e], []);
            && ValidStore(r) && r.clog == s.clog + [e] && r.tlog == []
            && r.c == r.f == Raise(s.c, e.ltime)
  {
    AppliedValid(s, [e], []);
    OneWrite(s.c, e);
    OneWrite(s.f, e);
  }

  /** Applying the same lists twice is applying them once. */
  lemma AppliedIdempotent(s: Store, commits: seq<Entry>, tentatives: seq<Entry>)
    requires ValidStore(s) && Named(commits, s.c) && Named(tentatives, s.c)
    ensures var r := Applied(s, commits, tentatives);
            Applied(r, commits, tentatives) == r
  {
    var r := Applied(s, commits, tentatives);
    AppliedValid(s, commits, tentatives);
    var f := RaiseAll(s.f, commits);
    RaiseAllMax(s.c, commits);
    RaiseAllMax(s.f, commits);
    RaiseAllMax(f, tentatives);
    NewsNothing(r.c, commits);
    NewsNothing(r.f, commits);
    NewsNothing(r.f, tentatives);
    AfterEverything(r.c, r.tlog);
    assert r.clog + [] == r.clog;
  }

  // ------------------------------------------------------------ loop steps

  lemma {:induction false} RaiseAllKeepsOrder(v: VTime, w: VTime, es: seq<Entry>)
    requires v.Keys == w.Keys && VtimeEarlier(w, v)
    ensures VtimeEarlier(RaiseAll(w, es), RaiseAll(v, es))
  {
    if es != [] {
      RaiseAllKeepsOrder(Raise(v, es[0].ltime), Raise(w, es[0].ltime), es[1..]);
    }
  }

  lemma RaisedOneMore(v: VTime, es: seq<Entry>, i: nat)
    requires i < |es|
    ensures RaiseAll(v, es[..i + 1]) == Raise(RaiseAll(v, es[..i]), es[i].ltime)
  {
    assert es[..i + 1] == es[..i] + [es[i]];
    RaiseAllConcat(v, es[..i], [es[i]]);
    OneWrite(RaiseAll(v, es[..i]), es[i]);
  }

  lemma NonePlayed(v: VTime, es: seq<Entry>)
    ensures RaiseAll(v, es[..0]) == v && News(v, es[..0]) == []
  {
  }

  lemma PlayedOneMore(v: VTime, es: seq<Entry>, i: nat)
    requires i < |es|
    ensures RaiseAll(v, es[..i + 1]) == Raise(RaiseAll(v, es[..i]), es[i].ltime)
    ensures News(v, es[..i + 1]) == News(v, es[..i])
              + (if LtimeEarlier(RaiseAll(v, es[..i]), es[i].ltime) then [] else [es[i]])
  {
    RaisedOneMore(v, es, i);
    assert es[..i + 1] == es[..i] + [es[i]];
    NewsConcat(v, es[..i], [es[i]]);
    OneWrite(RaiseAll(v, es[..i]), es[i]);
  }

  lemma {:induction false} InsertAllConcat(log: seq<Entry>, a: seq<Entry>, b: seq<Entry>)
    ensures InsertAll(log, a + b) == InsertAll(InsertAll(log, a), b)
    decreases |a|
  {
    if a == [] {
      assert a + b == b;
    } else {
      assert (a + b)[1..] == a[1..] + b;
      InsertAllConcat(Insert(log, a[0]), a[1..], b);
    }
  }

  lemma ReplayPrefix(log: seq<Entry>, n: nat)
    requires n < |log|
    ensures Replay(log[..n + 1])[..n] == Replay(log[..n])
  {
    assert log[..n + 1][..n] == log[..n];
  }

  lemma MergedByTime(log: seq<Entry>, v: VTime, es: seq<Entry>)
    requires Named(es, v)
    ensures ByTime(log) && Named(log, v) ==>
      (forall x <- log :: LtimeEarlier(v, x.ltime)) ==> ByTime(InsertAll(log, News(v, es)))
  {
    hide ByTime, Sorted;
    SortedIsByTime(log);
    if Sorted(log) && Named(log, v) && (forall x <- log :: LtimeEarlier(v, x.ltime)) {
      InsertAllSorted(log, v, es);
    }
  }

  /** A request is refused exactly if each vector is ahead of the other somewhere; otherwise nothing is held back. */
  lemma MissingExactly(s: Store, c: VTime, f: VTime)
    requires ValidStore(s) && c.Keys == f.Keys == s.c.Keys
    ensures Missing(s, c, f) == AssertionError <==>
      (exists n :: n in c && c[n] < s.c[n]) && exists n :: n in c && s.c[n] < c[n]
    ensures Missing(s, c, f) != AssertionError ==>
      && (forall e :: e in Missing(s, c, f).committed <==> e in s.clog && c[e.ltime.name] < e.ltime.ts)
      && (forall e :: e in Missing(s, c, f).tentative <==> e in s.tlog && f[e.ltime.name] < e.ltime.ts)
  {
    ChkInvariants(s);
    AfterMembers(c, s.clog);
    AfterMembers(f, s.tlog);
    hide RaiseAll, Replay, After, Sorted, OriginOrdered;
  }

  // ------------------------------------------------------------ the objects

  class VectorTime {
    var vector: VTime

    constructor (servers: set<string>)
      ensures vector == NewVector(servers)
    {
      vector := NewVector(servers);
    }

    method Advance(l: LogicalTime)
      requires l.name in vector && vector[l.name] <= l.ts
      modifies this
      ensures vector == old(vector)[l.name := l.ts]
    {
      vector := vector[l.name := l.ts];
    }

    method IsVtimeEarlier(w: VTime) returns (earlier: bool)
      requires w.Keys <= vector.Keys
      ensures earlier == VtimeEarlier(vector, w)
    {
      var todo := w.Keys;
      while todo != {}
        invariant todo <= w.Keys
        invariant forall s <- w.Keys - todo :: w[s] <= vector[s]
        decreases |todo|
      {
        var s :| s in todo;
        if !LtimeEarlier(vector, LogicalTime(s, w[s])) {
          return false;
        }
        todo := todo - {s};
      }
      return true;
    }
  }

  class AppState {
    var s: string

    constructor ()
      ensures s == ""
    {
      s := "";
    }
  }

  /** `AppLogEntry.do`: append the character. */
  method Do(e: Entry, state: AppState)
    modifies state
    ensures state.s == old(state.s) + [e.ch]
  {
    state.s := state.s + [e.ch];
  }

  /** `AppLogEntry.undo`: remove the last character. */
  method Undo(e: Entry, state: AppState)
    requires state.s != ""
    modifies state
    ensures state.s == old(state.s)[..|old(state.s)| - 1]
  {
    state.s := state.s[..|state.s| - 1];
  }

  class Storage {
    const c: VectorTime
    const f: VectorTime
    var committedLog: seq<Entry>
    var tentativeLog: seq<Entry>
    const committedSt: AppState
    const tentativeSt: AppState

    function View(): Store
      reads this, c, f, committedSt, tentativeSt
    {
      Store(c.vector, f.vector, committedLog, tentativeLog, committedSt.s, tentativeSt.s)
    }

    ghost predicate Valid()
      reads this, c, f, committedSt, tentativeSt
    {
      c != f && committedSt != tentativeSt && ValidStore(View())
    }

    constructor (servers: set<string>)
      ensures Valid() && View() == InitStore(servers)
      ensures fresh(c) && fresh(f) && fresh(committedSt) && fresh(tentativeSt)
    {
      c := new VectorTime(servers);
      f := new VectorTime(servers);
      committedLog, tentativeLog := [], [];
      committedSt := new AppState();
      tentativeSt := new AppState();
    }

    /** Undo the tentative writes, newest first. */
    method Rollback()
      requires tentativeSt.s == Replay(committedLog + tentativeLog)
      modifies tentativeSt
      ensures tentativeSt.s == Replay(committedLog)
    {
      ghost var log := committedLog + tentativeLog;
      var i := |tentativeLog|;
      assert log[..|committedLog| + i] == log;
      while i > 0
        invariant 0 <= i <= |tentativeLog|
        invariant tentativeSt.s == Replay(log[..|committedLog| + i])
      {
        i := i - 1;
        ReplayPrefix(log, |committedLog| + i);
        Undo(tentativeLog[i], tentativeSt);
      }
      assert log[..|committedLog|] == committedLog;
    }

    /** Commit one write unless the committed vector already covers it. */
    method CommitOne(e: Entry)
      requires c != f && committedSt != tentativeSt
      requires e.ltime.name in c.vector && e.ltime.name in f.vector
      requires f.vector[e.ltime.name] >= c.vector[e.ltime.name]
      requires committedSt.s == tentativeSt.s == Replay(committedLog)
      modifies this`committedLog, c, f, committedSt, tentativeSt
      ensures c.vector == Raise(old(c.vector), e.ltime)
      ensures f.vector == Raise(old(f.vector), e.ltime)
      ensures committedLog == old(committedLog) + (if LtimeEarlier(old(c.vector), e.ltime) then [] else [e])
      ensures committedSt.s == tentativeSt.s == Replay(committedLog)
    {
      if !LtimeEarlier(c.vector, e.ltime) {
        ReplayConcat(committedLog, [e]);
        committedLog := committedLog + [e];
        Do(e, committedSt);
        Do(e, tentativeSt);
        c.Advance(e.ltime);
        if !LtimeEarlier(f.vector, e.ltime) {
          f.Advance(e.ltime);
        }
      }
    }

    /** Append the unknown commits, in the order given, to the log and to both states. */
    method PlayCommits(commits: seq<Entry>)
      requires c != f && committedSt != tentativeSt && Named(commits, c.vector)
      requires f.vector.Keys == c.vector.Keys && VtimeEarlier(f.vector, c.vector)
      requires committedSt.s == tentativeSt.s == Replay(committedLog)
      modifies this`committedLog, c, f, committedSt, tentativeSt
      ensures c.vector == RaiseAll(old(c.vector), commits)
      ensures f.vector == RaiseAll(old(f.vector), commits)
      ensures committedLog == old(committedLog) + News(old(c.vector), commits)
      ensures committedSt.s == tentativeSt.s == Replay(committedLog)
    {
      hide RaiseAll, News, Replay;
      ghost var c0, f0, log0 := c.vector, f.vector, committedLog;
      NonePlayed(c0, commits);
      NonePlayed(f0, commits);
      var i := 0;
      while i < |commits|
        invariant 0 <= i <= |commits|
        invariant c.vector == RaiseAll(c0, commits[..i]) && f.vector == RaiseAll(f0, commits[..i])
        invariant committedLog == log0 + News(c0, commits[..i])
        invariant committedSt.s == tentativeSt.s == Replay(committedLog)
      {
        PlayedOneMore(c0, commits, i);
        RaisedOneMore(f0, commits, i);
        RaiseAllKeepsOrder(c0, f0, commits[..i]);
        CommitOne(commits[i]);
        i := i + 1;
      }
      assert commits[..i] == commits;
    }

    /** Drop from the tentative log what is committed now. */
    method DropCommitted()
      requires Named(tentativeLog, c.vector)
      modifies this`tentativeLog
      ensures tentativeLog == After(c.vector, old(tentativeLog))
    {
      var kept: seq<Entry> := [];
      var i := 0;
      while i < |tentativeLog|
        invariant 0 <= i <= |tentativeLog|
        invariant kept + After(c.vector, tentativeLog[i..]) == After(c.vector, tentativeLog)
      {
        assert tentativeLog[i..][0] == tentativeLog[i] && tentativeLog[i..][1..] == tentativeLog[i + 1..];
        if !LtimeEarlier(c.vector, tentativeLog[i].ltime) {
          kept := kept + [tentativeLog[i]];
        }
        i := i + 1;
      }
      tentativeLog := kept;
    }

    /** Merge the unknown tentative writes into the sorted tentative log. */
    method MergeTentatives(tentatives: seq<Entry>)
      requires Named(tentatives, f.vector)
      modifies this`tentativeLog, f
      ensures f.vector == RaiseAll(old(f.vector), tentatives)
      ensures tentativeLog == InsertAll(old(tentativeLog), News(old(f.vector), tentatives))
      ensures ByTime(old(tentativeLog)) && Named(old(tentativeLog), old(f.vector)) ==>
        (forall x <- old(tentativeLog) :: LtimeEarlier(old(f.vector), x.ltime)) ==> ByTime(tentativeLog)
    {
      var i := 0;
      while i < |tentatives|
        invariant 0 <= i <= |tentatives|
        invariant f.vector == RaiseAll(old(f.vector), tentatives[..i])
        invariant tentativeLog == InsertAll(old(tentativeLog), News(old(f.vector), tentatives[..i]))
      {
        PlayedOneMore(old(f.vector), tentatives, i);
        InsertAllConcat(old(tentativeLog), News(old(f.vector), tentatives[..i]), [tentatives[i]]);
        assert [tentatives[i]][1..] == [];
        assert News(old(f.vector), tentatives[..i]) + [] == News(old(f.vector), tentatives[..i]);
        if !LtimeEarlier(f.vector, tentatives[i].ltime) {
          tentativeLog := Insert(tentativeLog, tentatives[i]);
          f.Advance(tentatives[i].ltime);
        }
        i := i + 1;
      }
      assert tentatives[..i] == tentatives;
      MergedByTime(old(tentativeLog), old(f.vector), tentatives);
    }

    /** Play the tentative log on top of the committed writes. */
    method PlayTentatives()
      requires tentativeSt.s == Replay(committedLog)
      modifies tentativeSt
      ensures tentativeSt.s == Replay(committedLog + tentativeLog)
    {
      var i := 0;
      while i < |tentativeLog|
        invariant 0 <= i <= |tentativeLog|
        invariant tentativeSt.s == Replay(committedLog + tentativeLog[..i])
      {
        ReplayConcat(committedLog + tentativeLog[..i], [tentativeLog[i]]);
        assert committedLog + tentativeLog[..i + 1] == (committedLog + tentativeLog[..i]) + [tentativeLog[i]];
        Do(tentativeLog[i], tentativeSt);
        i := i + 1;
      }
      assert tentativeLog[..i] == tentativeLog;
    }

    /** Roll back, commit, drop, merge and replay: the same as replaying both logs from scratch. */
    method Apply(commits: seq<Entry>, tentatives: seq<Entry>)
      requires Valid() && Named(commits, c.vector) && Named(tentatives, c.vector)
      modifies this, c, f, committedSt, tentativeSt
      ensures Valid() && View() == Applied(old(View()), commits, tentatives)
    {
      ChkInvariants(View());
      AppliedValid(View(), commits, tentatives);
      hide RaiseAll, News, Replay, After, InsertAll, Sorted, OriginOrdered;
      Rollback();
      PlayCommits(commits);
      DropCommitted();
      MergeTentatives(tentatives);
      PlayTentatives();
    }

    method Commit(writes: seq<Entry>)
      requires Valid() && Named(writes, c.vector)
      modifies this, c, f, committedSt, tentativeSt
      ensures Valid() && View() == Applied(old(View()), writes, [])
    {
      Apply(writes, []);
    }

    method Tentative(writes: seq<Entry>)
      requires Valid() && Named(writes, c.vector)
      modifies this, c, f, committedSt, tentativeSt
      ensures Valid() && View() == Applied(old(View()), [], writes)
    {
      Apply([], writes);
    }

    method AntiEntropy(c': VTime, f': VTime) returns (reply: Reply)
      requires Valid() && c'.Keys == c.vector.Keys && f'.Keys == c.vector.Keys
      ensures reply == Missing(View(), c', f')
      ensures reply == AssertionError <==>
        (exists s :: s in c' && c'[s] < c.vector[s]) && exists s :: s in c' && c.vector[s] < c'[s]
      ensures reply != AssertionError ==>
        && (forall e :: e in reply.committed <==> e in committedLog && c'[e.ltime.name] < e.ltime.ts)
        && (forall e :: e in reply.tentative <==> e in tentativeLog && f'[e.ltime.name] < e.ltime.ts)
    {
      MissingExactly(View(), c', f');
      var behind := c.IsVtimeEarlier(c');
      if behind {
        return Reply(After(c', committedLog), After(f', tentativeLog));
      }
      if VtimeEarlier(c', c.vector) {
        return Reply([], After(f', tentativeLog));
      }
      return AssertionError;
    }
  }
}
