/** Logical times, vector times and write logs of the Bayou servers. */
module BayouLog {

  /** Python's `<` on strings: lexicographic, a proper prefix is smaller. */
  predicate NameLess(a: string, b: string) {
    if b == "" then false
    else if a == "" then true
    else if a[0] != b[0] then a[0] < b[0]
    else NameLess(a[1..], b[1..])
  }

  datatype LogicalTime = LogicalTime(name: string, ts: int) {
    predicate Less(other: LogicalTime) {
      ts < other.ts || (ts == other.ts && NameLess(name, other.name))
    }
  }

  /** A write: append `ch` to the replicated string. */
  datatype Entry = Entry(ltime: LogicalTime, ch: char)

  /** For each server, the timestamp up to which its writes are known. */
  type VTime = map<string, int>

  function NewVector(servers: set<string>): VTime {
    map s | s in servers :: 0
  }

  /** Is `l` at or before this vector? (`VectorTime.is_ltime_earlier`) */
  predicate LtimeEarlier(v: VTime, l: LogicalTime) {
    l.name in v && l.ts <= v[l.name]
  }

  /** Is `w` at or before this vector everywhere? (`VectorTime.is_vtime_earlier`) */
  predicate VtimeEarlier(v: VTime, w: VTime) {
    forall s <- w.Keys :: s in v && w[s] <= v[s]
  }

  /** Every write in `es` comes from a server the vector knows. */
  predicate Named(es: seq<Entry>, v: VTime) {
    forall e <- es :: e.ltime.name in v
  }

  /** Raise the vector to `l`, never backwards. */
  function Raise(v: VTime, l: LogicalTime): (r: VTime)
    ensures r.Keys == v.Keys
  {
    if l.name in v && v[l.name] < l.ts then v[l.name := l.ts] else v
  }

  function RaiseAll(v: VTime, es: seq<Entry>): (r: VTime)
    ensures r.Keys == v.Keys
  {
    if es == [] then v else RaiseAll(Raise(v, es[0].ltime), es[1..])
  }

  /** The writes of `es` that are still unknown when the list is played from the left. */
  function News(v: VTime, es: seq<Entry>): seq<Entry> {
    if es == [] then []
    else if LtimeEarlier(v, es[0].ltime) then News(v, es[1..])
    else [es[0]] + News(Raise(v, es[0].ltime), es[1..])
  }

  /** The writes of `es` strictly after the vector, in order. */
  function After(v: VTime, es: seq<Entry>): seq<Entry> {
    if es == [] then []
    else if LtimeEarlier(v, es[0].ltime) then After(v, es[1..])
    else [es[0]] + After(v, es[1..])
  }

  /** Insertion into a log sorted by logical time. */
  function Insert(log: seq<Entry>, e: Entry): seq<Entry> {
    if log == [] then [e]
    else if e.ltime.Less(log[0].ltime) then [e] + log
    else [log[0]] + Insert(log[1..], e)
  }

  function InsertAll(log: seq<Entry>, es: seq<Entry>): seq<Entry>
    decreases |es|
  {
    if es == [] then log else InsertAll(Insert(log, es[0]), es[1..])
  }

  ghost predicate Sorted(log: seq<Entry>) {
    forall i, j :: 0 <= i < j < |log| ==> log[i].ltime.Less(log[j].ltime)
  }

  /** Writes of one server appear in the order that server issued them. */
  ghost predicate OriginOrdered(log: seq<Entry>) {
    forall i, j :: 0 <= i < j < |log| && log[i].ltime.name == log[j].ltime.name
      ==> log[i].ltime.ts < log[j].ltime.ts
  }

  /** The string obtained by playing a log on the empty string. */
  function Replay(log: seq<Entry>): (r: string)
    ensures |r| == |log|
    ensures forall i :: 0 <= i < |log| ==> r[i] == log[i].ch
  {
    if log == [] then "" else Replay(log[..|log| - 1]) + [log[|log| - 1].ch]
  }

  // ---------------------------------------------------------------- order

  lemma {:induction false} NameLessTotal(a: string, b: string)
    ensures NameLess(a, b) || NameLess(b, a) || a == b
    ensures !(NameLess(a, b) && NameLess(b, a))
    ensures NameLess(a, b) ==> a != b
  {
    if a != "" && b != "" && a[0] == b[0] {
      NameLessTotal(a[1..], b[1..]);
      assert a == [a[0]] + a[1..] && b == [b[0]] + b[1..];
    }
  }

  /** `a` and `b` differ at `k` for the first time, and `a` has the smaller character there. */
  ghost predicate SmallerAt(a: string, b: string, k: nat) {
    k < |a| && k < |b| && a[..k] == b[..k] && a[k] < b[k]
  }

  /** Names are ordered as in a dictionary: by the first different character, or a proper prefix comes first. */
  lemma {:induction false} NameLessIsLexicographic(a: string, b: string)
    ensures NameLess(a, b) <==> a < b || exists k: nat :: SmallerAt(a, b, k)
  {
    forall k: nat | 0 < k && SmallerAt(a, b, k) ensures a[0] == b[0] {
      assert a[..k][0] == b[..k][0];
    }
    if a != "" && b != "" && a[0] == b[0] {
      NameLessIsLexicographic(a[1..], b[1..]);
      assert a == [a[0]] + a[1..] && b == [b[0]] + b[1..];
      if k: nat :| SmallerAt(a[1..], b[1..], k) {
        assert a[..k + 1] == [a[0]] + a[1..][..k] && b[..k + 1] == [b[0]] + b[1..][..k];
        assert SmallerAt(a, b, k + 1);
      }
      if k: nat :| SmallerAt(a, b, k) {
        assert k != 0;
        assert a[1..][..k - 1] == a[..k][1..] && b[1..][..k - 1] == b[..k][1..];
        assert SmallerAt(a[1..], b[1..], k - 1);
      }
    } else if a != "" && b != "" && a[0] < b[0] {
      assert a[..0] == b[..0] && SmallerAt(a, b, 0);
    }
  }

  /** The order of a log by time, and by name among equal times. */
  ghost predicate ByTime(log: seq<Entry>) {
    forall i, j :: 0 <= i < j < |log| ==>
      var d, e := log[i].ltime, log[j].ltime;
      && d.ts <= e.ts
      && (d.ts == e.ts ==> d.name < e.name || exists k: nat :: SmallerAt(d.name, e.name, k))
  }

  lemma SortedIsByTime(log: seq<Entry>)
    ensures Sorted(log) <==> ByTime(log)
  {
    hide NameLess, SmallerAt;
    forall i, j | 0 <= i < j < |log|
      ensures log[i].ltime.Less(log[j].ltime) <==>
        var d, e := log[i].ltime, log[j].ltime;
        && d.ts <= e.ts
        && (d.ts == e.ts ==> d.name < e.name || exists k: nat :: SmallerAt(d.name, e.name, k))
    {
      NameLessIsLexicographic(log[i].ltime.name, log[j].ltime.name);
    }
  }

  lemma {:induction false} NameLessTransitive(a: string, b: string, c: string)
    requires NameLess(a, b) && NameLess(b, c)
    ensures NameLess(a, c)
  {
    if a != "" && a[0] == b[0] && b[0] == c[0] {
      NameLessTransitive(a[1..], b[1..], c[1..]);
    }
  }

  /** Logical times are totally ordered, so the tentative log has one order everywhere. */
  lemma LogicalTimeTotalOrder(a: LogicalTime, b: LogicalTime, c: LogicalTime)
    ensures a.Less(b) || b.Less(a) || a == b
    ensures !(a.Less(b) && b.Less(a)) && !a.Less(a)
    ensures a.Less(b) && b.Less(c) ==> a.Less(c)
    ensures a.ts < b.ts ==> a.Less(b)
    ensures a.ts == b.ts ==> (a.Less(b) <==> a.name < b.name || exists k: nat :: SmallerAt(a.name, b.name, k))
  {
    NameLessIsLexicographic(a.name, b.name);
    NameLessTotal(a.name, b.name);
    NameLessTotal(a.name, a.name);
    if NameLess(a.name, b.name) && NameLess(b.name, c.name) {
      NameLessTransitive(a.name, b.name, c.name);
    }
  }

  lemma SortedIsOriginOrdered(log: seq<Entry>)
    requires Sorted(log)
    ensures OriginOrdered(log)
  {
    forall i, j | 0 <= i < j < |log| && log[i].ltime.name == log[j].ltime.name
      ensures log[i].ltime.ts < log[j].ltime.ts
    {
      assert log[i].ltime.Less(log[j].ltime);
      NameLessTotal(log[i].ltime.name, log[j].ltime.name);
    }
  }

  // ---------------------------------------------------------------- vectors

  /** Some write of server `s` in `es` carries timestamp `ts`. */
  ghost predicate Attained(es: seq<Entry>, s: string, ts: int) {
    exists e <- es :: e.ltime == LogicalTime(s, ts)
  }

  /** RaiseAll computes, for each server, the maximum of the old entry and the writes played. */
  lemma {:induction false} RaiseAllIsMax(v: VTime, es: seq<Entry>, s: string)
    requires s in v
    ensures v[s] <= RaiseAll(v, es)[s]
    ensures forall e <- es | e.ltime.name == s :: e.ltime.ts <= RaiseAll(v, es)[s]
    ensures RaiseAll(v, es)[s] == v[s]
         || Attained(es, s, RaiseAll(v, es)[s])
  {
    if es != [] {
      RaiseAllIsMax(Raise(v, es[0].ltime), es[1..], s);
      assert es == [es[0]] + es[1..];
    }
  }

  /** The characterisation above for all servers at once. */
  lemma RaiseAllMax(v: VTime, es: seq<Entry>)
    ensures VtimeEarlier(RaiseAll(v, es), v)
    ensures forall e <- es | e.ltime.name in v :: LtimeEarlier(RaiseAll(v, es), e.ltime)
    ensures forall s <- v.Keys ::
              (RaiseAll(v, es)[s] == v[s] || Attained(es, s, RaiseAll(v, es)[s]))
  {
    forall s <- v.Keys
      ensures v[s] <= RaiseAll(v, es)[s]
      ensures RaiseAll(v, es)[s] == v[s]
           || Attained(es, s, RaiseAll(v, es)[s])
    {
      RaiseAllIsMax(v, es, s);
    }
    forall e <- es | e.ltime.name in v
      ensures LtimeEarlier(RaiseAll(v, es), e.ltime)
    {
      RaiseAllIsMax(v, es, e.ltime.name);
    }
  }

  /** A vector is determined by being such a maximum. */
  lemma RaiseAllUnique(v: VTime, es: seq<Entry>, w: VTime)
    requires w.Keys == v.Keys
    requires forall s <- v.Keys :: v[s] <= w[s]
    requires forall e <- es | e.ltime.name in v :: e.ltime.ts <= w[e.ltime.name]
    requires forall s <- v.Keys :: (w[s] == v[s] || Attained(es, s, w[s]))
    ensures w == RaiseAll(v, es)
  {
    RaiseAllMax(v, es);
    forall s <- v.Keys
      ensures w[s] == RaiseAll(v, es)[s]
    {
      if w[s] != v[s] {
        var e :| e in es && e.ltime == LogicalTime(s, w[s]);
        assert LtimeEarlier(RaiseAll(v, es), e.ltime);
      }
    }
  }

  lemma {:induction false} RaiseAllConcat(v: VTime, a: seq<Entry>, b: seq<Entry>)
    ensures RaiseAll(v, a + b) == RaiseAll(RaiseAll(v, a), b)
  {
    if a == [] {
      assert a + b == b;
    } else {
      assert (a + b)[1..] == a[1..] + b;
      RaiseAllConcat(Raise(v, a[0].ltime), a[1..], b);
    }
  }

  lemma OneWrite(v: VTime, e: Entry)
    ensures RaiseAll(v, [e]) == Raise(v, e.ltime)
    ensures News(v, [e]) == if LtimeEarlier(v, e.ltime) then [] else [e]
  {
    assert [e][1..] == [];
  }

  lemma {:induction false} RaiseAllNews(v: VTime, es: seq<Entry>)
    ensures RaiseAll(v, News(v, es)) == RaiseAll(v, es)
  {
    if es != [] {
      if LtimeEarlier(v, es[0].ltime) {
        RaiseAllNews(v, es[1..]);
      } else {
        var n := News(Raise(v, es[0].ltime), es[1..]);
        assert ([es[0]] + n)[1..] == n;
        RaiseAllNews(Raise(v, es[0].ltime), es[1..]);
      }
    }
  }

  // ---------------------------------------------------------------- filters

  /** After keeps exactly the writes beyond the vector. */
  lemma {:induction false} AfterMembers(v: VTime, es: seq<Entry>)
    ensures forall e :: e in After(v, es) <==> e in es && !LtimeEarlier(v, e.ltime)
  {
    if es != [] {
      AfterMembers(v, es[1..]);
      assert es == [es[0]] + es[1..];
    }
  }

  /** After keeps the order of the log. */
  lemma {:induction false} AfterSorted(v: VTime, es: seq<Entry>)
    requires Sorted(es)
    ensures Sorted(After(v, es))
  {
    if es != [] {
      AfterSorted(v, es[1..]);
      AfterMembers(v, es[1..]);
      var rest := After(v, es[1..]);
      forall i | 0 <= i < |rest| ensures es[0].ltime.Less(rest[i].ltime) {
        assert rest[i] in es[1..];
      }
    }
  }

  /** Played in origin order, skipping known writes is the same as filtering by the initial vector. */
  lemma {:induction false} NewsIsAfter(v: VTime, es: seq<Entry>)
    requires OriginOrdered(es)
    ensures News(v, es) == After(v, es)
  {
    if es != [] {
      NewsIsAfter(v, es[1..]);
      if !LtimeEarlier(v, es[0].ltime) {
        var w := Raise(v, es[0].ltime);
        NewsIsAfter(w, es[1..]);
        AfterSameTail(v, w, es[1..]);
      }
    }
  }

  lemma {:induction false} AfterSameTail(v: VTime, w: VTime, es: seq<Entry>)
    requires v.Keys == w.Keys
    requires forall e <- es :: LtimeEarlier(v, e.ltime) <==> LtimeEarlier(w, e.ltime)
    ensures After(v, es) == After(w, es)
  {
    if es != [] {
      AfterSameTail(v, w, es[1..]);
    }
  }

  lemma {:induction false} NewsMembers(v: VTime, es: seq<Entry>)
    requires Named(es, v)
    ensures forall e <- News(v, es) :: e in es && !LtimeEarlier(v, e.ltime)
    ensures OriginOrdered(News(v, es))
  {
    if es != [] {
      if LtimeEarlier(v, es[0].ltime) {
        NewsMembers(v, es[1..]);
      } else {
        NewsMembers(Raise(v, es[0].ltime), es[1..]);
      }
    }
  }

  lemma {:induction false} NewsNothing(v: VTime, es: seq<Entry>)
    requires forall e <- es :: LtimeEarlier(v, e.ltime)
    ensures News(v, es) == [] && RaiseAll(v, es) == v
  {
    if es != [] {
      NewsNothing(v, es[1..]);
    }
  }

  lemma {:induction false} AfterEverything(v: VTime, es: seq<Entry>)
    requires forall e <- es :: !LtimeEarlier(v, e.ltime)
    ensures After(v, es) == es
  {
    if es != [] {
      AfterEverything(v, es[1..]);
    }
  }

  /** Playing one list after the other: the second meets the vector that the first leaves behind. */
  lemma {:induction false} NewsConcat(v: VTime, a: seq<Entry>, b: seq<Entry>)
    ensures News(v, a + b) == News(v, a) + News(RaiseAll(v, a), b)
  {
    hide Raise, LtimeEarlier;
    if a == [] {
      assert a + b == b;
    } else {
      assert (a + b)[0] == a[0] && (a + b)[1..] == a[1..] + b;
      RaiseKnown(v, a[0].ltime);
      NewsConcat(Raise(v, a[0].ltime), a[1..], b);
    }
  }

  lemma RaiseKnown(v: VTime, l: LogicalTime)
    ensures LtimeEarlier(v, l) ==> Raise(v, l) == v
  {
  }

  /** `e` occurs in the list before anything of its origin that is not older. */
  ghost predicate InTurn(es: seq<Entry>, e: Entry) {
    exists i :: 0 <= i < |es| && es[i] == e && AllOlder(es[..i], e)
  }

  ghost predicate AllOlder(es: seq<Entry>, e: Entry) {
    forall d <- es | d.ltime.name == e.ltime.name :: d.ltime.ts < e.ltime.ts
  }

  /** Exactly which writes are played: the unknown ones in turn. The others of the list are skipped for good. */
  lemma {:induction false} NewsExactly(v: VTime, es: seq<Entry>, e: Entry)
    requires Named(es, v) && e.ltime.name in v
    ensures e in News(v, es) <==> !LtimeEarlier(v, e.ltime) && InTurn(es, e)
  {
    if es != [] {
      var w := Raise(v, es[0].ltime);
      RaiseKnown(v, es[0].ltime);
      NewsExactly(w, es[1..], e);
      InTurnFirst(es, e);
    }
  }

  lemma InTurnFirst(es: seq<Entry>, e: Entry)
    requires es != []
    ensures InTurn(es, e) <==> e == es[0] || (AllOlder([es[0]], e) && InTurn(es[1..], e))
  {
    if e == es[0] {
      assert AllOlder(es[..0], e);
    }
    if AllOlder([es[0]], e) && InTurn(es[1..], e) {
      var i :| 0 <= i < |es| - 1 && es[1..][i] == e && AllOlder(es[1..][..i], e);
      assert es[..i + 1] == [es[0]] + es[1..][..i];
      assert es[i + 1] == e && AllOlder(es[..i + 1], e);
    }
    if InTurn(es, e) && e != es[0] {
      var i :| 0 <= i < |es| && es[i] == e && AllOlder(es[..i], e);
      assert es[..i] == [es[0]] + es[1..][..i - 1];
      assert es[1..][i - 1] == e && AllOlder(es[1..][..i - 1], e);
    }
  }

  lemma {:induction false} AfterNothing(v: VTime, es: seq<Entry>)
    requires forall e <- es :: LtimeEarlier(v, e.ltime)
    ensures After(v, es) == []
  {
    if es != [] {
      AfterNothing(v, es[1..]);
    }
  }

  lemma {:induction false} AfterSplit(v: VTime, a: seq<Entry>, b: seq<Entry>)
    ensures After(v, a + b) == After(v, a) + After(v, b)
  {
    if a == [] {
      assert a + b == b;
    } else {
      assert (a + b)[1..] == a[1..] + b;
      AfterSplit(v, a[1..], b);
    }
  }

  // ---------------------------------------------------------------- sorted insertion

  lemma {:induction false} InsertMembers(log: seq<Entry>, e: Entry)
    ensures multiset(Insert(log, e)) == multiset(log) + multiset{e}
    ensures forall x :: x in Insert(log, e) <==> x in log || x == e
  {
    if log != [] {
      assert log == [log[0]] + log[1..];
      InsertMembers(log[1..], e);
    }
  }

  lemma {:induction false} InsertSorted(log: seq<Entry>, e: Entry)
    requires Sorted(log) && forall x <- log :: x.ltime != e.ltime
    ensures Sorted(Insert(log, e))
  {
    if log != [] {
      LogicalTimeTotalOrder(e.ltime, log[0].ltime, e.ltime);
      if e.ltime.Less(log[0].ltime) {
        forall i | 0 <= i < |log| ensures e.ltime.Less(log[i].ltime) {
          LogicalTimeTotalOrder(e.ltime, log[0].ltime, log[i].ltime);
        }
      } else {
        InsertSorted(log[1..], e);
        var rest := Insert(log[1..], e);
        InsertMembers(log[1..], e);
        forall i | 0 <= i < |rest| ensures log[0].ltime.Less(rest[i].ltime) {
          assert rest[i] in rest;
        }
      }
    }
  }

  /** Merging unknown writes keeps the log sorted and loses and invents nothing. */
  lemma {:induction false} InsertAllSorted(log: seq<Entry>, v: VTime, es: seq<Entry>)
    requires Sorted(log) && Named(log, v) && Named(es, v)
    requires forall x <- log :: LtimeEarlier(v, x.ltime)
    ensures Sorted(InsertAll(log, News(v, es))) && ByTime(InsertAll(log, News(v, es)))
    ensures multiset(InsertAll(log, News(v, es))) == multiset(log) + multiset(News(v, es))
    decreases |es|
  {
    if es != [] {
      if LtimeEarlier(v, es[0].ltime) {
        InsertAllSorted(log, v, es[1..]);
      } else {
        var w := Raise(v, es[0].ltime);
        var n := News(w, es[1..]);
        assert ([es[0]] + n)[1..] == n;
        InsertSorted(log, es[0]);
        InsertMembers(log, es[0]);
        var log' := Insert(log, es[0]);
        forall x <- log' ensures x.ltime.name in w && LtimeEarlier(w, x.ltime) {
        }
        InsertAllSorted(log', w, es[1..]);
      }
    }
    SortedIsByTime(InsertAll(log, News(v, es)));
  }

  // ---------------------------------------------------------------- replay

  lemma ReplayUnique(log: seq<Entry>, s: string)
    requires |s| == |log| && forall i :: 0 <= i < |log| ==> s[i] == log[i].ch
    ensures s == Replay(log)
  {
  }

  lemma ReplayConcat(a: seq<Entry>, b: seq<Entry>)
    ensures Replay(a + b) == Replay(a) + Replay(b)
  {
    ReplayUnique(a + b, Replay(a) + Replay(b));
  }
}
