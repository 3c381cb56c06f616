/** What each step does to one channel. */
module DataflowChannels {
  import opened WordCount
  import opened Dataflow
  import opened DataflowInv

  // ------------------------------------------------------------ words in flight

  lemma {:induction false} InFlightAppend(c: seq<Packet>, more: seq<Packet>, e: nat)
    ensures InFlight(c + more, e) == InFlight(c, e) + InFlight(more, e)
  {
    if more == [] {
      assert c + more == c;
    } else {
      var n := |more| - 1;
      assert (c + more)[..|c + more| - 1] == c + more[..n];
      InFlightAppend(c, more[..n], e);
    }
  }

  lemma {:induction false} InFlightStale(c: seq<Packet>, e: nat)
    requires forall i :: 0 <= i < |c| ==> c[i].rid != e
    ensures InFlight(c, e) == []
  {
    if c != [] {
      InFlightStale(c[..|c| - 1], e);
    }
  }

  lemma {:induction false} InFlightPackets(items: seq<Item>, e: nat)
    ensures InFlight(Packets(items, e), e) == items
  {
    if items != [] {
      var n := |items| - 1;
      InFlightPackets(items[..n], e);
      assert Packets(items, e)[..n] == Packets(items[..n], e);
      assert items == items[..n] + [items[n]];
    }
  }

  lemma InFlightFirst(c: seq<Packet>, e: nat)
    requires c != []
    ensures InFlight(c, e) == (if c[0].Count? && c[0].rid == e then [c[0].item] else []) + InFlight(c[1..], e)
  {
    InFlightAppend([c[0]], c[1..], e);
    assert [c[0]] + c[1..] == c;
    assert [c[0]][..0] == [];
    assert InFlight([c[0]], e) == InFlight([], e) + if c[0].Count? && c[0].rid == e then [c[0].item] else [];
  }

  lemma UnchangedFiles(a: Mapper, a': Mapper, b: Reducer, b': Reducer, e: nat)
    requires a'.saved == a.saved && b'.saved == b.saved
    ensures forall k :: HasM(a', k, e) <==> HasM(a, k, e)
    ensures forall k :: HasR(b', k, e) <==> HasR(b, k, e)
  {
  }

  // ------------------------------------------------------------ the mapper moves

  function AppendIf(c: seq<Packet>, more: seq<Packet>, appended: bool): seq<Packet> {
    if appended then c + more else c
  }

  /**
   * The mapper sends part of a file, and perhaps dies over it. While it and all reducers take part, it sends the whole
   * file.
   */
  ghost predicate SendsPart(f: seq<seq<string>>, a: Mapper, a': Mapper, r: nat, e: nat, intact: bool, part: seq<Item>) {
    && r < |a.conns| && a.cursor <= |f| && a'.cursor <= |f|
    && a' == a.(cursor := a'.cursor, up := a'.up) && (a'.up ==> a.up)
    && StageOk(a.stage, a.rid, e) && Positive(part)
    && (a'.up && intact && a.conns[r] && a.stage == Joined ==>
          a.cursor < |f| && a'.cursor == a.cursor + 1 && part == Share(Counter(f[a.cursor]), r))
  }

  lemma MapperSends(f: seq<seq<string>>, a: Mapper, a': Mapper, b: Reducer, c: seq<Packet>, m: nat, r: nat, e: nat,
                    base: int, next: nat, intact: bool, part: seq<Item>)
    requires Channel(f, a, b, c, m, r, e, base, next, intact) && SendsPart(f, a, a', r, e, intact, part)
    requires intact ==> b.stage == Joined && b.up
    ensures Channel(f, a', b, AppendIf(c, Packets(part, a.rid), a.conns[r]), m, r, e, base, next, intact)
  {
    hide Tagged, MarkersOk, Conserved, Separates;
    MapperSendsTagged(f, a, a', b, c, r, e, next, intact, part);
    MapperSendsCounts(f, a, a', b, c, m, r, e, base, intact, part);
    MapperSendsMarkers(f, a, a', b, c, m, r, e, intact, part);
    forall k | 1 <= k < next ensures Matches(f, a', b, k, m, r) {
      assert Matches(f, a, b, k, m, r);
    }
  }

  lemma MapperSendsTagged(f: seq<seq<string>>, a: Mapper, a': Mapper, b: Reducer, c: seq<Packet>, r: nat, e: nat,
                          next: nat, intact: bool, part: seq<Item>)
    requires Tagged(a, b, c, e, next) && SendsPart(f, a, a', r, e, intact, part)
    ensures Tagged(a', b, AppendIf(c, Packets(part, a.rid), a.conns[r]), e, next)
  {
    var c' := AppendIf(c, Packets(part, a.rid), a.conns[r]);
    forall i | 0 <= i < |c'|
      ensures PacketOk(c'[i], e, next)
      ensures if i < |c| then c'[i] == c[i] else c'[i].Count? && c'[i].rid == a.rid
    {
      if |c| <= i {
        assert c'[i] == Count(part[i - |c|], a.rid);
      }
    }
  }

  lemma MapperSendsMarkers(f: seq<seq<string>>, a: Mapper, a': Mapper, b: Reducer, c: seq<Packet>, m: nat, r: nat,
                           e: nat, intact: bool, part: seq<Item>)
    requires m < |b.seen| && MarkersOk(a, b, c, e) && Separates(f, a, b, c, m, r, e)
    requires SendsPart(f, a, a', r, e, intact, part)
    ensures var c' := AppendIf(c, Packets(part, a.rid), a.conns[r]);
      MarkersOk(a', b, c', e) && Separates(f, a', b, c', m, r, e)
  {
    hide Items, InFlight;
    UnchangedFiles(a, a', b, b, e);
    var c' := AppendIf(c, Packets(part, a.rid), a.conns[r]);
    forall i | 0 <= i < |c'|
      ensures if i < |c| then c'[i] == c[i] && c'[..i] == c[..i] else c'[i].Count?
    {
      if |c| <= i {
        assert c'[i] == Count(part[i - |c|], a.rid);
      }
    }
    forall k | HasR(b, k, e) && HasM(a', k, e) && a'.saved[k].sound ensures Matches(f, a', b, k, m, r) {
      assert Matches(f, a, b, k, m, r);
    }
  }

  lemma MapperSendsCounts(f: seq<seq<string>>, a: Mapper, a': Mapper, b: Reducer, c: seq<Packet>, m: nat, r: nat,
                          e: nat, base: int, intact: bool, part: seq<Item>)
    requires m < |b.seen| && SendsPart(f, a, a', r, e, intact, part) && Conserved(f, a, b, c, m, r, e, base, intact)
    requires Wired(a, b, r, e) && (intact ==> b.stage == Joined && b.up)
    ensures Conserved(f, a', b, AppendIf(c, Packets(part, a.rid), a.conns[r]), m, r, e, base, intact)
  {
    hide InFlight, Items, Share, Counter, Packets;
    InFlightAppend(c, Packets(part, a.rid), a.rid);
    InFlightPackets(part, a.rid);
    if a'.up && intact && a.stage == Joined {
      ItemsNext(f, r, a.cursor);
    }
  }

  lemma ItemsNext(f: seq<seq<string>>, r: nat, n: nat)
    requires n < |f|
    ensures Items(f, r, n + 1) == Items(f, r, n) + Share(Counter(f[n]), r)
  {
  }

  /**
   * `a'` is mapper `a` after its next command, writing checkpoint `k`, which it has not written in this epoch; `marked`
   * says that the marker goes out on this channel.
   */
  ghost predicate Saves(a: Mapper, a': Mapper, r: nat, e: nat, base: int, next: nat, intact: bool, k: nat,
                        marked: bool)
  {
    && StageOk(a.stage, a.rid, e) && a.stage != Out
    && (forall j :: HasM(a, j, e) ==> a.stage != Waiting) && !HasM(a, k, e) && (k == 0 || k == next)
    && FromOk(base, next)
    && a.link.cmds != [] && a.link.cmds[0] == Checkpoint(k, a.rid)
    && a' == a.(saved := a.saved[k := MapperCp(a.cursor, a.rid, intact)], link := a'.link)
    && a'.link.cmds == a.link.cmds[1..]
    && r < |a.conns| && (marked ==> a.conns[r]) && a.up
  }

  /** The mapper writes checkpoint `k` and, if `marked`, forwards the marker. */
  lemma MapperSaves(f: seq<seq<string>>, a: Mapper, a': Mapper, b: Reducer, c: seq<Packet>, m: nat, r: nat, e: nat,
                    base: int, next: nat, intact: bool, k: nat, marked: bool)
    requires Channel(f, a, b, c, m, r, e, base, next, intact)
    requires Saves(a, a', r, e, base, next, intact, k, marked)
    ensures Channel(f, a', b, AppendIf(c, [Marker(k, a.rid)], marked), m, r, e, base, next, intact)
  {
    hide Tagged, MarkersOk, Conserved, Separates;
    MapperSavesMarkers(a, a', b, c, r, e, base, next, intact, k, marked);
    MapperSavesCounts(f, a, a', b, c, m, r, e, base, next, intact, k, marked);
    assert Wired(a', b, r, e);
    forall j | 1 <= j < next ensures Matches(f, a', b, j, m, r) {
      assert Matches(f, a, b, j, m, r);
    }
  }

  lemma MapperSavesMarkers(a: Mapper, a': Mapper, b: Reducer, c: seq<Packet>, r: nat, e: nat,
                           base: int, next: nat, intact: bool, k: nat, marked: bool)
    requires Saves(a, a', r, e, base, next, intact, k, marked)
    requires Tagged(a, b, c, e, next) && MarkersOk(a, b, c, e) && Wired(a, b, r, e)
    ensures Tagged(a', b, AppendIf(c, [Marker(k, a.rid)], marked), e, next)
    ensures MarkersOk(a', b, AppendIf(c, [Marker(k, a.rid)], marked), e)
  {
    var c' := AppendIf(c, [Marker(k, a.rid)], marked);
    assert !HasR(b, k, e);
    forall j | HasR(b, j, e) ensures HasM(a', j, e) && a.rid == e {
      assert HasM(a, j, e);
    }
    forall i | 0 <= i < |c'| ensures PacketOk(c'[i], e, next)
    {
      assert i < |c| ==> c'[i] == c[i];
    }
    forall i | 0 <= i < |c| && CurrentMarker(c[i], e) ensures c[i].cp != k && HasM(a', c[i].cp, e) {
      assert HasM(a, c[i].cp, e);
    }
  }

  lemma MapperSavesCounts(f: seq<seq<string>>, a: Mapper, a': Mapper, b: Reducer, c: seq<Packet>, m: nat, r: nat,
                          e: nat, base: int, next: nat, intact: bool, k: nat, marked: bool)
    requires Saves(a, a', r, e, base, next, intact, k, marked)
    requires m < |b.seen| && a.cursor <= |f|
    requires MarkersOk(a, b, c, e) && Conserved(f, a, b, c, m, r, e, base, intact) && Separates(f, a, b, c, m, r, e)
    ensures Conserved(f, a', b, AppendIf(c, [Marker(k, a.rid)], marked), m, r, e, base, intact)
    ensures Separates(f, a', b, AppendIf(c, [Marker(k, a.rid)], marked), m, r, e)
  {
    hide InFlight, Items;
    var c' := AppendIf(c, [Marker(k, a.rid)], marked);
    MarkerCarriesNothing(c, Marker(k, a.rid), e);
    assert InFlight(c', e) == InFlight(c, e);
    forall j | HasR(b, j, e) && HasM(a', j, e) && a'.saved[j].sound ensures Matches(f, a', b, j, m, r) {
      assert HasM(a, j, e) && j != k;
    }
    forall i | 0 <= i < |c'| && CurrentMarker(c'[i], e) && b.stage == Joined && HasM(a', c'[i].cp, e)
               && a'.saved[c'[i].cp].sound
      ensures Covers(f, r, a'.saved[c'[i].cp].cursor, b.seen[m] + InFlight(c'[..i], e))
    {
      if i < |c| {
        assert c'[i] == c[i] && c'[..i] == c[..i];
        assert HasM(a, c[i].cp, e);
      } else {
        assert c'[..i] == c;
      }
    }
  }

  lemma MarkerCarriesNothing(c: seq<Packet>, p: Packet, e: nat)
    requires p.Marker?
    ensures InFlight(c + [p], e) == InFlight(c, e)
  {
    assert (c + [p])[..|c|] == c;
  }

  /** The mapper restores its cursor and connects again; in the current epoch the cursor is the base checkpoint's. */
  lemma MapperRestores(f: seq<seq<string>>, a: Mapper, a': Mapper, b: Reducer, c: seq<Packet>, m: nat, r: nat, e: nat,
                       base: int, next: nat, intact: bool, from: int)
    requires Channel(f, a, b, c, m, r, e, base, next, intact)
    requires a.stage == Waiting && 1 <= a'.rid <= e && a'.stage == Joining(a.stage, a'.rid, e)
    requires a'.saved == a.saved && a'.cursor == SavedCursor(a, from) <= |f|
    requires r < |a'.conns| && a'.conns[r] == b.up
    requires a'.rid == e ==> from == base
    ensures Channel(f, a', b, c, m, r, e, base, next, intact)
  {
    UnchangedFiles(a, a', b, b, e);
    hide Items, InFlight;
    InFlightStale(c, e);
    assert Tagged(a', b, c, e, next);
    assert MarkersOk(a', b, c, e);
    assert Conserved(f, a', b, c, m, r, e, base, intact);
    assert Separates(f, a', b, c, m, r, e);
    forall k | 1 <= k < next ensures Matches(f, a', b, k, m, r) {
      assert Matches(f, a, b, k, m, r);
    }
  }

  /** A restarted mapper: what it has sent stays on its way, and nothing is promised about what it sends from now on. */
  lemma MapperRestarts(f: seq<seq<string>>, a: Mapper, a': Mapper, b: Reducer, c: seq<Packet>, m: nat, r: nat, e: nat,
                       base: int, next: nat, intact: bool)
    requires Channel(f, a, b, c, m, r, e, base, next, intact)
    requires StageOk(a.stage, a.rid, e) && a'.stage == Leaving(a.stage)
    requires a'.saved == a.saved && a'.cursor <= |f| && a'.link.cmds == []
    requires r < |a'.conns| && a'.conns[r] == b.up
    ensures Channel(f, a', b, c, m, r, e, base, next, intact)
  {
    UnchangedFiles(a, a', b, b, e);
    hide Items, InFlight;
    assert Tagged(a', b, c, e, next);
    assert MarkersOk(a', b, c, e);
    assert Conserved(f, a', b, c, m, r, e, base, intact);
    assert Separates(f, a', b, c, m, r, e);
    forall k | 1 <= k < next ensures Matches(f, a', b, k, m, r) {
      assert Matches(f, a, b, k, m, r);
    }
  }

  /** Datagrams between workers and coordinator do not touch the channel, if they bring no forbidden command. */
  lemma LinksOnly(f: seq<seq<string>>, a: Mapper, a': Mapper, b: Reducer, b': Reducer, c: seq<Packet>, m: nat, r: nat,
                  e: nat, base: int, next: nat, intact: bool)
    requires Channel(f, a, b, c, m, r, e, base, next, intact)
    requires a' == a.(link := a'.link) && b' == b.(link := b'.link)
    requires Wired(a', b', r, e)
    ensures Channel(f, a', b', c, m, r, e, base, next, intact)
  {
    UnchangedFiles(a, a', b, b', e);
    hide Items, InFlight;
    assert Tagged(a', b', c, e, next);
    assert MarkersOk(a', b', c, e);
    assert Conserved(f, a', b', c, m, r, e, base, intact);
    assert Separates(f, a', b', c, m, r, e);
    forall k | 1 <= k < next ensures Matches(f, a', b', k, m, r) {
      assert Matches(f, a, b, k, m, r);
    }
  }

  // ------------------------------------------------------------ the reducer moves

  /** The reducer takes the next packet of this channel. */
  lemma ReducerTakes(f: seq<seq<string>>, a: Mapper, b: Reducer, c: seq<Packet>, m: nat, r: nat, e: nat,
                     base: int, next: nat, intact: bool)
    requires Channel(f, a, b, c, m, r, e, base, next, intact) && StageOk(b.stage, b.rid, e)
    requires c != [] && !(c[0].Marker? && c[0].rid == b.rid)
    ensures Channel(f, a, Handled(b, m, c[0]), c[1..], m, r, e, base, next, intact)
  {
    hide Tagged, MarkersOk, Conserved, Separates;
    var b', c' := Handled(b, m, c[0]), c[1..];
    ReducerTakesMarkers(a, b, c, m, e, next);
    ReducerTakesCounts(f, a, b, c, m, r, e, base, next, intact);
    assert Wired(a, b', r, e);
    forall k | 1 <= k < next ensures Matches(f, a, b', k, m, r) {
      assert Matches(f, a, b, k, m, r);
    }
  }

  lemma ReducerTakesMarkers(a: Mapper, b: Reducer, c: seq<Packet>, m: nat, e: nat, next: nat)
    requires m < |b.seen| && c != []
    requires Tagged(a, b, c, e, next) && MarkersOk(a, b, c, e)
    ensures Tagged(a, Handled(b, m, c[0]), c[1..], e, next) && MarkersOk(a, Handled(b, m, c[0]), c[1..], e)
  {
    UnchangedFiles(a, a, b, Handled(b, m, c[0]), e);
  }

  lemma ReducerTakesCounts(f: seq<seq<string>>, a: Mapper, b: Reducer, c: seq<Packet>, m: nat, r: nat, e: nat,
                           base: int, next: nat, intact: bool)
    requires m < |b.seen| && c != [] && !(c[0].Marker? && c[0].rid == b.rid) && a.cursor <= |f|
    requires StageOk(b.stage, b.rid, e) && Tagged(a, b, c, e, next)
    requires Conserved(f, a, b, c, m, r, e, base, intact) && Separates(f, a, b, c, m, r, e)
    ensures Conserved(f, a, Handled(b, m, c[0]), c[1..], m, r, e, base, intact)
    ensures Separates(f, a, Handled(b, m, c[0]), c[1..], m, r, e)
  {
    hide Items, InFlight;
    var b', c' := Handled(b, m, c[0]), c[1..];
    UnchangedFiles(a, a, b, b', e);
    InFlightFirst(c, e);
    forall i | 0 <= i < |c'| && CurrentMarker(c'[i], e) && b'.stage == Joined && HasM(a, c'[i].cp, e)
               && a.saved[c'[i].cp].sound
      ensures Covers(f, r, a.saved[c'[i].cp].cursor, b'.seen[m] + InFlight(c'[..i], e))
    {
      assert c[i + 1] == c'[i] && c[..i + 1][1..] == c'[..i];
      InFlightFirst(c[..i + 1], e);
    }
    forall k | HasR(b', k, e) && HasM(a, k, e) && a.saved[k].sound ensures Matches(f, a, b', k, m, r) {
      assert Matches(f, a, b, k, m, r);
    }
  }

  /** The reducer takes a packet of another channel. */
  lemma ReducerTakesElsewhere(f: seq<seq<string>>, a: Mapper, b: Reducer, c: seq<Packet>, m: nat, r: nat, e: nat,
                              base: int, next: nat, intact: bool, n: nat, p: Packet)
    requires Channel(f, a, b, c, m, r, e, base, next, intact)
    requires n < |b.seen| && n != m
    ensures Channel(f, a, Handled(b, n, p), c, m, r, e, base, next, intact)
  {
    UnchangedFiles(a, a, b, Handled(b, n, p), e);
    hide Items, InFlight;
    var b' := Handled(b, n, p);
    assert Tagged(a, b', c, e, next);
    assert MarkersOk(a, b', c, e);
    assert Conserved(f, a, b', c, m, r, e, base, intact);
    assert Separates(f, a, b', c, m, r, e);
    forall k | 1 <= k < next ensures Matches(f, a, b', k, m, r) {
      assert Matches(f, a, b, k, m, r);
    }
  }

  /** `b'` is reducer `b` after writing checkpoint `k`, with the marker at the head of the channel. */
  ghost predicate Writes(b: Reducer, b': Reducer, c: seq<Packet>, e: nat, k: nat) {
    && c != [] && c[0] == Marker(k, b.rid) && StageOk(b.stage, b.rid, e) && b.stage != Out
    && b' == b.(saved := b.saved[k := ReducerCp(b.wc, b.seen, b.rid)], link := b'.link)
  }

  /** The reducer saves and takes the marker off this channel. */
  lemma ReducerSaves(f: seq<seq<string>>, a: Mapper, b: Reducer, b': Reducer, c: seq<Packet>, m: nat, r: nat, e: nat,
                     base: int, next: nat, intact: bool, k: nat)
    requires Channel(f, a, b, c, m, r, e, base, next, intact) && Writes(b, b', c, e, k)
    ensures Channel(f, a, b', c[1..], m, r, e, base, next, intact)
  {
    hide Items, InFlight;
    InFlightFirst(c, e);
    ReducerSavesMarkers(a, b, b', c, e, next, k);
    assert Conserved(f, a, b', c[1..], m, r, e, base, intact);
    ReducerSavesCounts(f, a, b, b', c, m, r, e, next, k);
    assert Wired(a, b', r, e);
    forall j | 1 <= j < next ensures Matches(f, a, b', j, m, r) {
      assert Matches(f, a, b, j, m, r);
    }
  }

  lemma ReducerSavesMarkers(a: Mapper, b: Reducer, b': Reducer, c: seq<Packet>, e: nat, next: nat, k: nat)
    requires Tagged(a, b, c, e, next) && MarkersOk(a, b, c, e) && Writes(b, b', c, e, k)
    ensures Tagged(a, b', c[1..], e, next) && MarkersOk(a, b', c[1..], e)
  {
    var c' := c[1..];
    forall i | 0 <= i < |c'| ensures c'[i] == c[i + 1] && (b.rid == e && c'[i].Marker? ==> c'[i].rid == e) {
    }
    forall j | HasR(b', j, e) ensures (j == k && b.rid == e) || HasR(b, j, e) {
    }
  }

  lemma ReducerSavesCounts(f: seq<seq<string>>, a: Mapper, b: Reducer, b': Reducer, c: seq<Packet>, m: nat, r: nat,
                           e: nat, next: nat, k: nat)
    requires m < |b.seen| && Tagged(a, b, c, e, next) && MarkersOk(a, b, c, e) && Separates(f, a, b, c, m, r, e)
    requires Writes(b, b', c, e, k)
    ensures Separates(f, a, b', c[1..], m, r, e)
  {
    hide Items;
    var c' := c[1..];
    forall i | 0 <= i < |c'| && CurrentMarker(c'[i], e) && b'.stage == Joined && HasM(a, c'[i].cp, e)
               && a.saved[c'[i].cp].sound
      ensures Covers(f, r, a.saved[c'[i].cp].cursor, b'.seen[m] + InFlight(c'[..i], e))
    {
      assert c[i + 1] == c'[i] && c[..i + 1][1..] == c'[..i];
      InFlightFirst(c[..i + 1], e);
    }
    forall j | HasR(b', j, e) && HasM(a, j, e) && a.saved[j].sound ensures Matches(f, a, b', j, m, r) {
      if j == k && b.rid == e {
        assert CurrentMarker(c[0], e);
        assert c[..0] == [] && InFlight(c[..0], e) == [];
        assert Covers(f, r, a.saved[k].cursor, b.seen[m] + InFlight(c[..0], e));
        assert b.seen[m] + [] == b.seen[m];
      } else {
        assert HasR(b, j, e) && Matches(f, a, b, j, m, r);
      }
    }
  }

  /** The reducer restores its counts; in the current epoch those of the base checkpoint. */
  lemma ReducerRestores(f: seq<seq<string>>, a: Mapper, b: Reducer, rid: nat, from: int, mappers: nat, c: seq<Packet>,
                        m: nat, r: nat, e: nat, base: int, next: nat, intact: bool)
    requires Channel(f, a, b, c, m, r, e, base, next, intact)
    requires b.link.cmds != [] && rid <= e && b.stage == Waiting && !intact
    requires forall k :: !HasR(b, k, e)
    requires FromOk(from, next) && |b.seen| == mappers
    requires forall k :: k in b.saved ==> |b.saved[k].seen| == mappers
    requires rid == e ==> from == base && a.stage == Waiting
    requires m < mappers
    ensures forall intact' :: Channel(f, a, Restored(b, rid, from, mappers, e), c, m, r, e, base, next, intact')
  {
    var b' := Restored(b, rid, from, mappers, e);
    UnchangedFiles(a, a, b, b', e);
    hide InFlight;
    if 1 <= from {
      assert Matches(f, a, b, from, m, r);
    }
    assert Tagged(a, b', c, e, next);
    assert MarkersOk(a, b', c, e);
    assert Wired(a, b', r, e);
    assert forall intact' :: Conserved(f, a, b', c, m, r, e, base, intact');
    assert Separates(f, a, b', c, m, r, e);
    forall k | 1 <= k < next ensures Matches(f, a, b', k, m, r) {
      assert Matches(f, a, b, k, m, r);
    }
  }

  /** While the mapper waits for its recovery, nothing depends on whether all reducers take part. */
  lemma WaitingMapper(f: seq<seq<string>>, a: Mapper, b: Reducer, c: seq<Packet>, m: nat, r: nat, e: nat,
                      base: int, next: nat, intact: bool, intact': bool)
    requires Channel(f, a, b, c, m, r, e, base, next, intact) && a.stage == Waiting
    ensures Channel(f, a, b, c, m, r, e, base, next, intact')
  {
    hide Items, InFlight, Tagged, MarkersOk, Separates, Matches;
  }

  /** A reducer died, maybe this one, and connections to it broke. */
  lemma ReducerDies(f: seq<seq<string>>, a: Mapper, a': Mapper, b: Reducer, b': Reducer, c: seq<Packet>, m: nat, r: nat,
                    e: nat, base: int, next: nat, intact: bool)
    requires Channel(f, a, b, c, m, r, e, base, next, intact)
    requires a' == a.(conns := a'.conns) && b' == b.(up := b'.up) && r < |a'.conns|
    requires if b'.up then b.up && a'.conns[r] == a.conns[r] else !a'.conns[r]
    ensures Channel(f, a', b', c, m, r, e, base, next, false)
  {
    UnchangedFiles(a, a', b, b', e);
    hide Items, InFlight;
    assert Tagged(a', b', c, e, next);
    assert MarkersOk(a', b', c, e);
    assert Wired(a', b', r, e);
    assert Conserved(f, a', b', c, m, r, e, base, false);
    assert Separates(f, a', b', c, m, r, e);
    forall k | 1 <= k < next ensures Matches(f, a', b', k, m, r) {
      assert Matches(f, a, b, k, m, r);
    }
  }

  /** A restarted reducer has no connection and no counts left. */
  lemma ReducerRestarts(f: seq<seq<string>>, a: Mapper, b: Reducer, b': Reducer, c: seq<Packet>, m: nat, r: nat,
                        e: nat, base: int, next: nat, intact: bool)
    requires Channel(f, a, b, c, m, r, e, base, next, intact)
    requires !b.up && |b'.seen| == |b.seen| && b'.saved == b.saved && b'.stage == Leaving(b.stage)
    ensures Channel(f, a, b', [], m, r, e, base, next, false)
  {
    UnchangedFiles(a, a, b, b', e);
    hide Items, InFlight;
    assert Tagged(a, b', [], e, next);
    assert MarkersOk(a, b', [], e);
    assert Wired(a, b', r, e);
    assert Conserved(f, a, b', [], m, r, e, base, false);
    assert Separates(f, a, b', [], m, r, e);
    forall k | 1 <= k < next ensures Matches(f, a, b', k, m, r) {
      assert Matches(f, a, b, k, m, r);
    }
  }

  // ------------------------------------------------------------ the coordinator moves

  /** A round is complete: its checkpoint joins the completed ones, and none of its markers is left on the way. */
  lemma RoundEnds(f: seq<seq<string>>, a: Mapper, b: Reducer, c: seq<Packet>, m: nat, r: nat, e: nat,
                  base: int, next: nat, intact: bool)
    requires Channel(f, a, b, c, m, r, e, base, next, intact)
    requires HasR(b, next, e) && HasM(a, next, e) && a.saved[next].sound
    ensures Channel(f, a, b, c, m, r, e, base, next + 1, intact)
  {
    hide Items, InFlight;
    forall i | 0 <= i < |c| ensures PacketOk(c[i], e, next + 1) {
      assert PacketOk(c[i], e, next) && (c[i].Marker? ==> c[i].rid == e);
    }
    assert Tagged(a, b, c, e, next + 1);
    assert Matches(f, a, b, next, m, r);
  }

  /** A new epoch begins: nobody has joined it yet. */
  lemma EpochBegins(f: seq<seq<string>>, a: Mapper, a': Mapper, b: Reducer, b': Reducer, c: seq<Packet>, m: nat, r: nat,
                    e: nat, next: nat, base': int)
    requires m < |b.seen| && a.cursor <= |f| && r < |a.conns| && (a.conns[r] ==> b.up)
    requires forall i :: 0 <= i < |c| ==> PacketOk(c[i], e, next)
    requires forall k :: 1 <= k < next ==> Matches(f, a, b, k, m, r)
    requires a' == a.(stage := Waiting) && b' == b.(stage := Waiting, link := b'.link)
    requires forall k :: k in a.saved ==> a.saved[k].epoch <= e
    requires forall k :: k in b.saved ==> b.saved[k].epoch <= e
    ensures Channel(f, a', b', c, m, r, e + 1, base', next, false)
  {
    hide Items, InFlight;
    var e' := e + 1;
    forall i | 0 <= i < |c| ensures PacketOk(c[i], e', next) && c[i].rid < e' {
      assert PacketOk(c[i], e, next);
    }
    assert forall k :: !HasR(b', k, e');
    assert forall k :: !HasM(a', k, e');
    assert Tagged(a', b', c, e', next);
    assert MarkersOk(a', b', c, e');
    assert Wired(a', b', r, e');
    forall k | 1 <= k < next ensures Matches(f, a', b', k, m, r) {
      assert Matches(f, a, b, k, m, r);
    }
  }
}
