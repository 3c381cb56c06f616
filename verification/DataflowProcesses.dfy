/** The worker and coordinator state that the processes update in place, tied to the steps of the system. */
module DataflowProcesses {
  import opened WordCount
  import opened Dataflow

  // ------------------------------------------------------------ the reducer process

  class ReducerState {
    var wc: Counts
    var lastRecoveryId: nat
    var lastCpId: nat
    /** The checkpoint files, by id. */
    var files: map<nat, Counts>

    constructor ()
      ensures wc == map[] && lastRecoveryId == 0 && lastCpId == 0 && files == map[]
    {
      wc, lastRecoveryId, lastCpId, files := map[], 0, 0, map[];
    }

    method Checkpoint(id: nat)
      modifies this
      ensures files == old(files)[id := old(wc)] && lastCpId == id
      ensures wc == old(wc) && lastRecoveryId == old(lastRecoveryId)
    {
      files := files[id := wc];
      lastCpId := id;
    }

    /** The recovery id is set by the code; loading the file, or starting empty for -1, is specified. */
    method Recover(recoveryId: nat, checkpointId: int)
      requires checkpointId == -1 || checkpointId in files
      modifies this`wc, this`lastRecoveryId
      ensures lastRecoveryId == recoveryId
      ensures wc == if checkpointId == -1 then map[] else files[checkpointId]
    {
      if checkpointId == -1 {
        wc := map[];
      } else {
        wc := files[checkpointId];
      }
      lastRecoveryId := recoveryId;
    }

    /** `WC.handle`: the new dictionary is the one of the system's reducer after taking the packet from any mapper. */
    method HandleCount(word: string, count: nat, recoveryId: nat)
      modifies this`wc
      ensures recoveryId != lastRecoveryId ==> wc == old(wc)
      ensures forall b: Reducer, m: nat :: m < |b.seen| && b.wc == old(wc) && b.rid == lastRecoveryId ==>
        wc == Handled(b, m, Packet.Count(Item(word, count), recoveryId)).wc
    {
      if recoveryId == lastRecoveryId {
        wc := wc[word := (if word in wc then wc[word] else 0) + count];
      }
    }
  }

  /** Checkpoint, anything, recover: the dictionary is back, and counts of the old epoch no longer reach it. */
  method CheckpointThenRecover(r: ReducerState, id: nat, recoveryId: nat, stray: seq<Item>, strayId: nat)
    requires strayId != recoveryId
    modifies r
    ensures r.wc == old(r.wc) && r.lastRecoveryId == recoveryId
  {
    r.Checkpoint(id);
    for i := 0 to |stray|
      invariant id in r.files && r.files[id] == old(r.wc)
    {
      r.HandleCount(stray[i].word, stray[i].count, strayId);
    }
    r.Recover(recoveryId, id);
    for i := 0 to |stray|
      invariant r.wc == old(r.wc) && r.lastRecoveryId == recoveryId
    {
      r.HandleCount(stray[i].word, stray[i].count, strayId);
    }
  }

  // ------------------------------------------------------------ the mapper process

  /** Sending the count raises: the word is empty, or the connection to its reducer is broken. */
  predicate Raises(item: Item, alive: seq<bool>)
    requires |alive| == REDUCERS
  {
    item.word == "" || !alive[Route(item.word)]
  }

  /** `n` is the first count that raises, or there is none and `n` is the number of counts. */
  ghost predicate FirstRaise(items: seq<Item>, alive: seq<bool>, n: nat)
    requires |alive| == REDUCERS
  {
    && n <= |items| && (forall i :: 0 <= i < n ==> !Raises(items[i], alive))
    && (n < |items| ==> Raises(items[n], alive))
  }

  predicate AliveUpTo(alive: seq<bool>, r: nat)
    requires r < |alive|
  {
    forall q :: 0 <= q <= r ==> alive[q]
  }

  /** The reducers before the first broken connection. */
  function Reached(alive: seq<bool>): set<nat> {
    set r | 0 <= r < |alive| && AliveUpTo(alive, r)
  }

  class MapperState {
    const stream: seq<seq<string>>
    var lastStreamId: nat
    var lastRecoveryId: nat
    var lastCpId: nat
    var isWcDone: bool
    /** What has been written to the reducers' sockets, and which of them are open. */
    var sent: seq<seq<Packet>>
    var alive: seq<bool>
    var toCoordinator: seq<Report>
    /** The checkpoint files, by id. */
    var files: map<nat, nat>

    ghost predicate Valid()
      reads this
    {
      lastStreamId <= |stream| && |sent| == |alive| == REDUCERS
    }

    constructor (stream: seq<seq<string>>)
      ensures Valid() && this.stream == stream && lastStreamId == 0 && lastRecoveryId == 0 && !isWcDone
      ensures sent == [[], []] && toCoordinator == [] && files == map[]
    {
      this.stream := stream;
      lastStreamId, lastRecoveryId, lastCpId, isWcDone := 0, 0, 0, false;
      sent, alive, toCoordinator, files := [[], []], [true, true], [], map[];
    }

    method Checkpoint(id: nat)
      requires Valid()
      modifies this`files, this`lastCpId
      ensures Valid() && files == old(files)[id := lastStreamId] && lastCpId == id
    {
      files := files[id := lastStreamId];
      lastCpId := id;
    }

    /**
     * The recovery id is set by the code. Specified are restoring the cursor, or the start of the stream for -1, and
     * new connections to the reducers, of which those in `reachable` can be made.
     */
    method Recover(recoveryId: nat, checkpointId: int, reachable: seq<bool>)
      requires Valid() && (checkpointId == -1 || (checkpointId in files && files[checkpointId] <= |stream|))
      requires |reachable| == REDUCERS
      modifies this`lastStreamId, this`lastRecoveryId, this`isWcDone, this`alive
      ensures Valid() && lastRecoveryId == recoveryId && !isWcDone && alive == reachable
      ensures lastStreamId == if checkpointId == -1 then 0 else files[checkpointId]
    {
      if checkpointId == -1 {
        lastStreamId := 0;
      } else {
        lastStreamId := files[checkpointId];
      }
      lastRecoveryId := recoveryId;
      isWcDone := false;
      alive := reachable;
    }

    /**
     * The checkpoint command, as specified: one of another epoch is ignored; otherwise the cursor is saved, the marker
     * is forwarded to one reducer after the other until a connection is broken, and the checkpoint is acknowledged if
     * none is.
     */
    method HandleCheckpoint(id: nat, recoveryId: nat)
      requires Valid()
      modifies this
      ensures Valid() && alive == old(alive) && lastStreamId == old(lastStreamId) && isWcDone == old(isWcDone)
      ensures lastRecoveryId == old(lastRecoveryId)
      ensures recoveryId != lastRecoveryId ==>
        files == old(files) && sent == old(sent) && toCoordinator == old(toCoordinator) && lastCpId == old(lastCpId)
      ensures recoveryId == lastRecoveryId ==>
        && files == old(files)[id := lastStreamId] && lastCpId == id
        && (forall r :: 0 <= r < REDUCERS ==>
              sent[r] == old(sent)[r] + if r in Reached(alive) then [Marker(id, recoveryId)] else [])
        && toCoordinator == old(toCoordinator) + if 0 in Reached(alive) && 1 in Reached(alive) then [Ack(id)] else []
    {
      if recoveryId != lastRecoveryId {
        return;
      }
      Checkpoint(id);
      for r := 0 to REDUCERS
        invariant Valid() && unchanged(`alive, `lastStreamId, `isWcDone, `lastRecoveryId, `toCoordinator)
        invariant files == old(files)[id := lastStreamId] && lastCpId == id
        invariant forall q :: 0 <= q < r ==> alive[q]
        invariant forall q :: 0 <= q < REDUCERS ==>
          sent[q] == old(sent)[q] + if q < r then [Marker(id, recoveryId)] else []
      {
        if !alive[r] {
          return;
        }
        sent := sent[r := sent[r] + [Marker(id, recoveryId)]];
      }
      toCoordinator := toCoordinator + [Ack(id)];
    }

    /** The recovery command, as specified: recover and acknowledge. */
    method HandleRecover(recoveryId: nat, checkpointId: int, reachable: seq<bool>)
      requires Valid() && (checkpointId == -1 || (checkpointId in files && files[checkpointId] <= |stream|))
      requires |reachable| == REDUCERS
      modifies this`lastStreamId, this`lastRecoveryId, this`isWcDone, this`alive, this`toCoordinator
      ensures Valid() && lastRecoveryId == recoveryId && !isWcDone && alive == reachable
      ensures lastStreamId == if checkpointId == -1 then 0 else files[checkpointId]
      ensures toCoordinator == old(toCoordinator) + [RecoveryAck(recoveryId)]
    {
      Recover(recoveryId, checkpointId, reachable);
      toCoordinator := toCoordinator + [RecoveryAck(recoveryId)];
    }

    /** The loop that sends the counts, until one raises. */
    method SendCounts(items: seq<Item>) returns (n: nat)
      requires Valid()
      modifies this`sent
      ensures Valid() && FirstRaise(items, alive, n)
      ensures forall r :: 0 <= r < REDUCERS ==>
        sent[r] == old(sent)[r] + Packets(Share(items[..n], r), lastRecoveryId)
    {
      hide Share, Packets, Route;
      n := 0;
      ShareNothing(items, lastRecoveryId);
      while n < |items|
        invariant n <= |items| && |sent| == REDUCERS
        invariant forall i :: 0 <= i < n ==> !Raises(items[i], alive)
        invariant forall r :: 0 <= r < REDUCERS ==>
          sent[r] == old(sent)[r] + Packets(Share(items[..n], r), lastRecoveryId)
      {
        if Raises(items[n], alive) {
          return;
        }
        var r := Route(items[n].word);
        sent := sent[r := sent[r] + [Packet.Count(items[n], lastRecoveryId)]];
        ShareNext(items, n, lastRecoveryId);
        n := n + 1;
      }
    }

    /**
     * One round of `word_count`. The counts before the first one that raises are sent; the cursor moves exactly when
     * none raises, so a file that failed is sent again from its start.
     */
    method WordCount() returns (n: nat)
      requires Valid()
      modifies this
      ensures Valid() && alive == old(alive) && lastRecoveryId == old(lastRecoveryId) && lastCpId == old(lastCpId)
      ensures files == old(files)
      ensures old(lastStreamId) == |stream| ==>
        isWcDone && toCoordinator == old(toCoordinator) + [Done] && sent == old(sent)
          && lastStreamId == old(lastStreamId)
      ensures old(lastStreamId) < |stream| ==>
        var items := Counter(stream[old(lastStreamId)]);
        && toCoordinator == old(toCoordinator) && isWcDone == old(isWcDone)
        && FirstRaise(items, alive, n)
        && (forall r :: 0 <= r < REDUCERS ==> sent[r] == old(sent)[r] + Packets(Share(items[..n], r), lastRecoveryId))
        && lastStreamId == old(lastStreamId) + if n == |items| then 1 else 0
      ensures old(sent)[0] <= sent[0] && old(sent)[1] <= sent[1]
      ensures forall k :: |old(sent)[0]| <= k < |sent[0]| ==>
        sent[0][k].Count? && sent[0][k].item.word != "" && sent[0][k].item.word[0] < 'm'
      ensures forall k :: |old(sent)[1]| <= k < |sent[1]| ==>
        sent[1][k].Count? && sent[1][k].item.word != "" && 'm' <= sent[1][k].item.word[0]
      ensures old(lastStreamId) < |stream| ==>
        var items := Counter(stream[old(lastStreamId)]);
        && (forall i :: 0 <= i < n ==> items[i].word != "" && alive[if items[i].word[0] < 'm' then 0 else 1])
        && (n < |items| ==> items[n].word == "" || !alive[if items[n].word[0] < 'm' then 0 else 1])
    {
      hide Share, Counter, Packets, FirstRaise;
      if lastStreamId == |stream| {
        isWcDone := true;
        toCoordinator := toCoordinator + [Done];
        return 0;
      }
      var items := Counter(stream[lastStreamId]);
      n := SendCounts(items);
      FirstRaiseRoutes(old(sent), sent, items, alive, n, lastRecoveryId);
      if n == |items| {
        lastStreamId := lastStreamId + 1;
      }
    }
  }

  /**
   * Why words must not be empty: the code raises at the first empty word of a file, leaves the cursor where it was,
   * and on the next round sends the counts before that word a second time under the same recovery id.
   */
  method RetryAfterEmptyWord(a: MapperState) returns (n: nat)
    requires a.Valid() && a.lastStreamId < |a.stream| && "" in a.stream[a.lastStreamId]
    modifies a
    ensures a.Valid() && a.lastStreamId == old(a.lastStreamId)
    ensures n < |Counter(a.stream[a.lastStreamId])|
    ensures forall r :: 0 <= r < REDUCERS ==>
      var part := Packets(Share(Counter(a.stream[a.lastStreamId])[..n], r), a.lastRecoveryId);
      a.sent[r] == old(a.sent)[r] + part + part
  {
    CounterInOrder(a.stream[a.lastStreamId]);
    n := a.WordCount();
    ghost var items := Counter(a.stream[a.lastStreamId]);
    var again := a.WordCount();
    FirstRaiseOnce(items, a.alive, n, again);
  }

  lemma FirstRaiseOnce(items: seq<Item>, alive: seq<bool>, n: nat, k: nat)
    requires |alive| == REDUCERS && FirstRaise(items, alive, n) && FirstRaise(items, alive, k)
    ensures n == k
  {
  }

  /** What the counts before the first one that raises look like, by the first characters of their words. */
  lemma FirstRaiseRoutes(before: seq<seq<Packet>>, after: seq<seq<Packet>>, items: seq<Item>, alive: seq<bool>,
                         n: nat, rid: nat)
    requires |alive| == |before| == |after| == REDUCERS && FirstRaise(items, alive, n)
    requires forall r :: 0 <= r < REDUCERS ==> after[r] == before[r] + Packets(Share(items[..n], r), rid)
    ensures forall i :: 0 <= i < n ==> items[i].word != "" && alive[if items[i].word[0] < 'm' then 0 else 1]
    ensures n < |items| ==> items[n].word == "" || !alive[if items[n].word[0] < 'm' then 0 else 1]
    ensures before[0] <= after[0] && before[1] <= after[1]
    ensures forall k :: |before[0]| <= k < |after[0]| ==>
      after[0][k].Count? && after[0][k].item.word != "" && after[0][k].item.word[0] < 'm'
    ensures forall k :: |before[1]| <= k < |after[1]| ==>
      after[1][k].Count? && after[1][k].item.word != "" && 'm' <= after[1][k].item.word[0]
  {
    hide Share;
    forall i | 0 <= i < n ensures items[i].word != "" {
      assert !Raises(items[i], alive);
    }
    ShareRoutes(items[..n], 0);
    ShareRoutes(items[..n], 1);
    assert after[0] == before[0] + Packets(Share(items[..n], 0), rid);
    assert after[1] == before[1] + Packets(Share(items[..n], 1), rid);
  }

  lemma ShareNothing(items: seq<Item>, rid: nat)
    ensures forall r :: Packets(Share(items[..0], r), rid) == []
  {
  }

  lemma ShareNext(items: seq<Item>, n: nat, rid: nat)
    requires n < |items|
    ensures forall r :: 0 <= r < REDUCERS ==>
      Packets(Share(items[..n + 1], r), rid)
        == Packets(Share(items[..n], r), rid) + if Route(items[n].word) == r then [Packet.Count(items[n], rid)] else []
  {
    assert items[..n + 1][..n] == items[..n];
  }

  lemma {:induction false} SharePrefix(items: seq<Item>, n: nat, r: nat)
    requires n <= |items|
    ensures Share(items[..n], r) <= Share(items, r)
  {
    if n < |items| {
      assert items[..|items| - 1][..n] == items[..n];
      SharePrefix(items[..|items| - 1], n, r);
    } else {
      assert items[..n] == items;
    }
  }

  /** How many of the first `n` counts go to each reducer. */
  function Upto(items: seq<Item>, n: nat): seq<nat>
    requires n <= |items|
  {
    seq(REDUCERS, r requires 0 <= r < REDUCERS => |Share(items[..n], r)|)
  }

  /**
   * What the system sees of a mapper's round: its cursor, what it has written to the reducers' sockets, and what it has
   * told the coordinator.
   */
  function Observed(s: System, m: nat, cursor: nat, written: seq<seq<Packet>>, told: seq<Report>): System
    requires Shape(s) && m < |s.mappers| && |written| == REDUCERS
  {
    var a := s.mappers[m];
    s.(mappers := s.mappers[m := a.(cursor := cursor, link := a.link.(reports := a.link.reports + told))],
       channels := s.channels[m := seq(REDUCERS, r requires 0 <= r < REDUCERS => s.channels[m][r] + written[r])])
  }

  /** The counts before the first one that raises. */
  function Prefixes(items: seq<Item>, n: nat, rid: nat): (written: seq<seq<Packet>>)
    requires n <= |items|
    ensures |written| == REDUCERS
  {
    seq(REDUCERS, r requires 0 <= r < REDUCERS => Packets(Share(items[..n], r), rid))
  }

  /** Nothing is written to a broken connection before the first count that raises. */
  lemma {:induction false} NothingToBroken(items: seq<Item>, alive: seq<bool>, n: nat, r: nat)
    requires |alive| == REDUCERS && r < REDUCERS && !alive[r] && n <= |items|
    requires forall i :: 0 <= i < n ==> !Raises(items[i], alive)
    ensures Share(items[..n], r) == []
  {
    if 0 < n {
      assert items[..n][..n - 1] == items[..n - 1];
      assert !Raises(items[n - 1], alive);
      NothingToBroken(items, alive, n - 1, r);
    }
  }

  /** With all connections intact and no empty words, nothing raises. */
  lemma NothingRaises(tokens: seq<string>, alive: seq<bool>, n: nat)
    requires |alive| == REDUCERS && (forall r :: 0 <= r < REDUCERS ==> alive[r]) && "" !in tokens
    requires FirstRaise(Counter(tokens), alive, n)
    ensures n == |Counter(tokens)|
  {
    CounterInOrder(tokens);
  }

  /** What has been written when the first `n` counts are sent is what the system's steps put into the channels. */
  lemma PrefixIsSent(s: System, m: nat, n: nat)
    requires Shape(s) && m < |s.mappers| && s.mappers[m].cursor < |s.files[m]|
    requires n <= |Counter(s.files[m][s.mappers[m].cursor])|
    requires forall i :: 0 <= i < n ==> !Raises(Counter(s.files[m][s.mappers[m].cursor])[i], s.mappers[m].conns)
    ensures
      var a := s.mappers[m];
      var items := Counter(s.files[m][a.cursor]);
      Reaches(s, m, Upto(items, n))
        && Sent(s, m, Upto(items, n)) == Observed(s, m, a.cursor, Prefixes(items, n, a.rid), []).channels[m]
  {
    hide Counter, Share;
    var a := s.mappers[m];
    var items := Counter(s.files[m][a.cursor]);
    var upto := Upto(items, n);
    var t := Observed(s, m, a.cursor, Prefixes(items, n, a.rid), []);
    forall r | 0 <= r < REDUCERS
      ensures upto[r] <= |Share(items, r)| && Share(items, r)[..upto[r]] == Share(items[..n], r)
    {
      SharePrefix(items, n, r);
    }
    forall r | 0 <= r < REDUCERS ensures t.channels[m][r] == Sent(s, m, upto)[r] {
      if !a.conns[r] {
        NothingToBroken(items, a.conns, n, r);
      }
    }
  }

  /**
   * Writing the counts up to the first one that raises is a send step of the system, with the connections as they are:
   * a complete one if all are intact, otherwise one that is cut short at the first count for a broken connection.
   */
  lemma WordCountIsSend(s: System, m: nat, n: nat)
    requires Shape(s) && m < |s.mappers| && s.mappers[m].up && s.mappers[m].cursor < |s.files[m]|
    requires NoEmptyWords(s.files)
    requires FirstRaise(Counter(s.files[m][s.mappers[m].cursor]), s.mappers[m].conns, n)
    ensures
      var a := s.mappers[m];
      var items := Counter(s.files[m][a.cursor]);
      var moved := n == |items|;
      SendStep(s, Observed(s, m, a.cursor + if moved then 1 else 0, Prefixes(items, n, a.rid), []), m, Upto(items, n),
               moved)
  {
    hide Counter, Share;
    var a := s.mappers[m];
    var items := Counter(s.files[m][a.cursor]);
    var moved := n == |items|;
    var t := Observed(s, m, a.cursor + if moved then 1 else 0, Prefixes(items, n, a.rid), []);
    PrefixIsSent(s, m, n);
    if AllOpen(a) {
      NothingRaises(s.files[m][a.cursor], a.conns, n);
      assert items[..n] == items;
    }
    assert t.mappers[m] == a.(cursor := a.cursor + if moved then 1 else 0);
  }

  /** A mapper may die after any of the counts that it can send: that is a crash step, and those counts stay sent. */
  lemma DyingIsCrash(s: System, m: nat, n: nat)
    requires Shape(s) && m < |s.mappers| && s.mappers[m].up && s.mappers[m].cursor < |s.files[m]|
    requires n <= |Counter(s.files[m][s.mappers[m].cursor])|
    requires forall i :: 0 <= i < n ==> !Raises(Counter(s.files[m][s.mappers[m].cursor])[i], s.mappers[m].conns)
    ensures
      var a := s.mappers[m];
      var items := Counter(s.files[m][a.cursor]);
      var t := Observed(s, m, a.cursor, Prefixes(items, n, a.rid), []);
      Next(s, t.(mappers := t.mappers[m := t.mappers[m].(up := false)]), MapperCrash(m, Upto(items, n)))
  {
    hide Counter, Share, Sent, Upto, Prefixes;
    PrefixIsSent(s, m, n);
    var a := s.mappers[m];
    assert a.(link := a.link.(reports := a.link.reports + [])) == a;
  }

  /** The process `p` is in the state that the system ascribes to mapper `m`. */
  ghost predicate Represents(p: MapperState, s: System, m: nat)
    reads p
  {
    && Shape(s) && m < |s.mappers| && p.stream == s.files[m]
    && var a := s.mappers[m];
    && a.up && p.lastStreamId == a.cursor && p.lastRecoveryId == a.rid && p.alive == a.conns
    && p.files == map k | k in a.saved :: a.saved[k].cursor
  }

  function Added<T>(before: seq<T>, after: seq<T>): seq<T>
    requires |before| <= |after|
  {
    after[|before|..]
  }

  /**
   * One round of word counting in place is a step of the system: from whatever state the process represents, what it
   * has written, told and moved makes a state that it represents again, by a send or finish step.
   */
  method WordCountIsStep(p: MapperState, ghost s: System, ghost m: nat) returns (n: nat)
    requires p.Valid() && Represents(p, s, m) && NoEmptyWords(s.files)
    modifies p
    ensures p.Valid() && |old(p.toCoordinator)| <= |p.toCoordinator|
    ensures forall r :: 0 <= r < REDUCERS ==> |old(p.sent)[r]| <= |p.sent[r]|
    ensures
      var written := [Added(old(p.sent)[0], p.sent[0]), Added(old(p.sent)[1], p.sent[1])];
      var t := Observed(s, m, p.lastStreamId, written, Added(old(p.toCoordinator), p.toCoordinator));
      && Represents(p, t, m)
      && if s.mappers[m].cursor == |s.files[m]| then FinishStep(s, t, m)
         else exists upto, moved :: SendStep(s, t, m, upto, moved)
  {
    hide Counter, Share, SendStep, Packets;
    n := p.WordCount();
    ghost var a := s.mappers[m];
    ghost var written := [Added(old(p.sent)[0], p.sent[0]), Added(old(p.sent)[1], p.sent[1])];
    ghost var t := Observed(s, m, p.lastStreamId, written, Added(old(p.toCoordinator), p.toCoordinator));
    if a.cursor == |s.files[m]| {
      assert written[0] == [] && written[1] == [];
      assert t.channels[m][0] == s.channels[m][0] && t.channels[m][1] == s.channels[m][1];
      assert t.channels[m] == s.channels[m];
      assert t == s.(mappers := s.mappers[m := a.(link := Told(a.link, Done))]);
    } else {
      ghost var items := Counter(s.files[m][a.cursor]);
      assert written[0] == Prefixes(items, n, a.rid)[0] && written[1] == Prefixes(items, n, a.rid)[1];
      assert written == Prefixes(items, n, a.rid);
      assert Added(old(p.toCoordinator), p.toCoordinator) == [];
      WordCountIsSend(s, m, n);
      assert SendStep(s, t, m, Upto(items, n), n == |items|);
    }
  }

  /** In the system's step the mapper sends and reports just what the process has written and told. */
  ghost predicate Shows(s: System, t: System, m: nat, written: seq<seq<Packet>>, told: seq<Report>) {
    && Shape(s) && Shape(t) && m < |s.mappers| == |t.mappers| && |written| == REDUCERS
    && t.mappers[m].link.reports == s.mappers[m].link.reports + told
    && forall r :: 0 <= r < REDUCERS ==> t.channels[m][r] == s.channels[m][r] + written[r]
  }

  /** The system after mapper `m` has handled a checkpoint command, with its connections as they are. */
  ghost function AfterCheckpoint(s: System, m: nat, id: nat, rid: nat): System
    requires Shape(s) && m < |s.mappers|
    requires s.mappers[m].link.cmds != [] && s.mappers[m].link.cmds[0] == Checkpoint(id, rid)
  {
    var a := s.mappers[m];
    var reach := Reached(a.conns);
    if rid != a.rid then s.(mappers := s.mappers[m := a.(link := Pop(a.link))])
    else s.(
      mappers := s.mappers[m := Checkpointed(a, Intact(s.reducers), 0 in reach && 1 in reach)],
      channels := s.channels[m := Marked(s.channels[m], Marker(id, rid), reach, a.conns)])
  }

  lemma CheckpointShown(s: System, m: nat, id: nat, rid: nat, written: seq<seq<Packet>>, told: seq<Report>)
    requires Shape(s) && m < |s.mappers| && s.mappers[m].up && |written| == REDUCERS
    requires s.mappers[m].link.cmds != [] && s.mappers[m].link.cmds[0] == Checkpoint(id, rid)
    requires
      var a, reach := s.mappers[m], Reached(s.mappers[m].conns);
      && (forall r :: 0 <= r < REDUCERS ==>
            written[r] == if rid == a.rid && r in reach then [Marker(id, rid)] else [])
      && told == if rid == a.rid && 0 in reach && 1 in reach then [Ack(id)] else []
    ensures
      var t := AfterCheckpoint(s, m, id, rid);
      MapperCheckpointStep(s, t, m, Reached(s.mappers[m].conns)) && Shows(s, t, m, written, told)
  {
    hide Intact;
  }

  /** A checkpoint command handled by the process, with whatever connections, is the system's step. */
  method CheckpointIsStep(p: MapperState, ghost s: System, ghost m: nat, id: nat, rid: nat)
    requires p.Valid() && Represents(p, s, m)
    requires s.mappers[m].link.cmds != [] && s.mappers[m].link.cmds[0] == Checkpoint(id, rid)
    modifies p
    ensures p.Valid() && |old(p.toCoordinator)| <= |p.toCoordinator|
    ensures forall r :: 0 <= r < REDUCERS ==> |old(p.sent)[r]| <= |p.sent[r]|
    ensures
      var written := [Added(old(p.sent)[0], p.sent[0]), Added(old(p.sent)[1], p.sent[1])];
      var told := Added(old(p.toCoordinator), p.toCoordinator);
      exists t ::
        MapperCheckpointStep(s, t, m, Reached(p.alive)) && Represents(p, t, m) && Shows(s, t, m, written, told)
  {
    hide Reached, MapperCheckpointStep, Shows, Intact;
    p.HandleCheckpoint(id, rid);
    ghost var t := AfterCheckpoint(s, m, id, rid);
    CheckpointShown(s, m, id, rid, [Added(old(p.sent)[0], p.sent[0]), Added(old(p.sent)[1], p.sent[1])],
                    Added(old(p.toCoordinator), p.toCoordinator));
    assert Represents(p, t, m);
  }

  /** A recovery command handled by the process is the system's step. */
  method RecoverIsStep(p: MapperState, ghost s: System, ghost m: nat, rid: nat, from: int, reachable: seq<bool>)
    requires p.Valid() && Represents(p, s, m) && reachable == Connected(s.reducers)
    requires s.mappers[m].link.cmds != [] && s.mappers[m].link.cmds[0] == Cmd.Recover(rid, from)
    requires from == -1 || (from in s.mappers[m].saved && s.mappers[m].saved[from].cursor <= |s.files[m]|)
    modifies p
    ensures p.Valid() && p.sent == old(p.sent) && |old(p.toCoordinator)| <= |p.toCoordinator|
    ensures
      var told := Added(old(p.toCoordinator), p.toCoordinator);
      exists t :: MapperRecoverStep(s, t, m) && Represents(p, t, m) && Shows(s, t, m, [[], []], told)
  {
    p.HandleRecover(rid, from, reachable);
    ghost var a := s.mappers[m];
    ghost var t := s.(mappers := s.mappers[m :=
      a.(cursor := SavedCursor(a, from), rid := rid, conns := Connected(s.reducers),
         stage := Joining(a.stage, rid, s.c.epoch), link := Told(Pop(a.link), RecoveryAck(rid)))]);
    assert MapperRecoverStep(s, t, m);
    assert Represents(p, t, m);
    assert Shows(s, t, m, [[], []], Added(old(p.toCoordinator), p.toCoordinator));
  }

  // ------------------------------------------------------------ the coordinator process

  class WorkerState {
    const isMapper: bool
    var lastCpId: nat
    var isDone: bool

    constructor (isMapper: bool)
      ensures this.isMapper == isMapper && lastCpId == 0 && !isDone
    {
      this.isMapper := isMapper;
      lastCpId, isDone := 0, false;
    }
  }

  datatype Transition = Stay | MoveTo(phase: Phase)

  class CoordinatorState {
    var phase: Phase
    var workers: seq<WorkerState>

    constructor (workers: seq<WorkerState>)
      ensures phase == Cp && this.workers == workers
    {
      phase := Cp;
      this.workers := workers;
    }

    ghost function LastCpIds(): (ids: seq<nat>)
      reads this, workers
      ensures |ids| == |workers| && forall i :: 0 <= i < |ids| ==> ids[i] == workers[i].lastCpId
    {
      seq(|workers|, i requires 0 <= i < |workers| reads this, workers => workers[i].lastCpId)
    }

    /**
     * `last_completed_checkpoint_id`: a running minimum that starts from a million. With ids below a million and at
     * least one worker it is the least last checkpoint, or -1 if some worker has none.
     */
    method LastCompletedCheckpointId() returns (id: int)
      ensures id == RollbackId(LastCpIds())
      ensures id == -1 <==> exists i :: 0 <= i < |workers| && workers[i].lastCpId == 0
      ensures id != -1 ==> id <= 1_000_000 && forall i :: 0 <= i < |workers| ==> id <= workers[i].lastCpId
      ensures id != -1 ==> id == 1_000_000 || exists i :: 0 <= i < |workers| && id == workers[i].lastCpId
      ensures id != -1 && workers != [] && (forall i :: 0 <= i < |workers| ==> workers[i].lastCpId < 1_000_000) ==>
        exists i :: 0 <= i < |workers| && id == workers[i].lastCpId
    {
      id := 1_000_000;
      for i := 0 to |workers|
        invariant id == Least(LastCpIds()[..i])
        invariant 0 <= id <= 1_000_000 && forall j :: 0 <= j < i ==> id <= workers[j].lastCpId
        invariant id == 1_000_000 || exists j :: 0 <= j < i && id == workers[j].lastCpId
      {
        assert LastCpIds()[..i + 1][..i] == LastCpIds()[..i];
        if id > workers[i].lastCpId {
          id := workers[i].lastCpId;
        }
      }
      assert LastCpIds()[..|workers|] == LastCpIds();
      if id == 0 {
        id := -1;
      }
    }

    /** `DoneRecvMsg.update`. As written it moves to the exit phase; its own comment asks for the last checkpoint. */
    method DoneUpdate(source: nat) returns (next: Transition)
      requires source < |workers| && workers[source].isMapper
      modifies workers[source]
      ensures workers[source].isDone && workers[source].lastCpId == old(workers[source].lastCpId)
      ensures next == MoveTo(Exiting) <==>
        forall i :: 0 <= i < |workers| && workers[i].isMapper ==> workers[i].isDone
      ensures next != MoveTo(Exiting) ==> next == Stay
    {
      workers[source].isDone := true;
      var allDone := true;
      for i := 0 to |workers|
        invariant allDone <==> forall j :: 0 <= j < i && workers[j].isMapper ==> workers[j].isDone
      {
        if workers[i].isMapper && !workers[i].isDone {
          allDone := false;
        }
      }
      next := if allDone then MoveTo(Exiting) else Stay;
    }
  }
}
