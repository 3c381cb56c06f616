/** The invariant of the checkpointed word count. */
module DataflowInv {
  import opened WordCount
  import opened Dataflow

  // ------------------------------------------------------------ words in flight

  /** The counts of the given epoch among the packets, in order. */
  function InFlight(packets: seq<Packet>, e: nat): seq<Item> {
    if packets == [] then []
    else
      var p := packets[|packets| - 1];
      InFlight(packets[..|packets| - 1], e) + if p.Count? && p.rid == e then [p.item] else []
  }

  ghost predicate CurrentMarker(p: Packet, e: nat) {
    p.Marker? && p.rid == e
  }

  /** Mapper `a` has written checkpoint `k` in epoch `e`. */
  ghost predicate HasM(a: Mapper, k: nat, e: nat) {
    k in a.saved && a.saved[k].epoch == e
  }

  ghost predicate HasR(b: Reducer, k: nat, e: nat) {
    k in b.saved && b.saved[k].epoch == e
  }

  // ------------------------------------------------------------ one channel

  ghost predicate PacketOk(p: Packet, e: nat, next: nat) {
    && p.rid <= e
    && (p.Count? ==> 0 < p.item.count)
    && (p.Marker? ==> p.cp == 0 || p.cp == next)
  }

  /**
   * Nothing of the current epoch comes from a mapper that still waits for its recovery, markers of the current epoch
   * come last, and no marker can reach a reducer that is out.
   */
  ghost predicate Tagged(a: Mapper, b: Reducer, c: seq<Packet>, e: nat, next: nat) {
    && (forall i :: 0 <= i < |c| ==> PacketOk(c[i], e, next))
    && (a.stage == Waiting ==> forall i :: 0 <= i < |c| ==> c[i].rid < e)
    && (forall i, j :: 0 <= i < j < |c| && c[i].rid == e && c[j].Marker? ==> c[j].rid == e)
    && (forall k :: HasR(b, k, e) ==> forall i :: 0 <= i < |c| && c[i].Marker? ==> c[i].rid == e)
    && (b.stage == Out ==> forall i :: 0 <= i < |c| && c[i].Marker? ==> c[i].rid != 0)
  }

  /** The mapper can no longer produce markers with the recovery id of restarted processes. */
  ghost predicate Unmarking(a: Mapper) {
    a.rid != 0 || forall i :: 0 <= i < |a.link.cmds| && a.link.cmds[i].Checkpoint? ==> a.link.cmds[i].rid != 0
  }

  /** Workers that take part are connected; a reducer that is out hears only from mappers that cannot mislead it. */
  ghost predicate Wired(a: Mapper, b: Reducer, r: nat, e: nat) {
    && r < |a.conns|
    && (a.conns[r] ==> b.up)
    && (a.conns[r] && b.stage == Out ==> if e == 0 then a.stage == Out else Unmarking(a))
    && (a.stage == Joined && a.up && b.stage == Joined && b.up ==> a.conns[r])
  }

  /** A marker of the current epoch is on its way once: its mapper has saved, its reducer has not. */
  ghost predicate MarkersOk(a: Mapper, b: Reducer, c: seq<Packet>, e: nat) {
    && (forall i :: 0 <= i < |c| && CurrentMarker(c[i], e) ==> HasM(a, c[i].cp, e) && !HasR(b, c[i].cp, e))
    && (forall i, j :: 0 <= i < j < |c| && CurrentMarker(c[i], e) && CurrentMarker(c[j], e) ==> c[i].cp != c[j].cp)
    && (forall k :: HasR(b, k, e) ==> HasM(a, k, e))
  }

  /** Nothing lost, nothing twice: what reducer `r` has seen of the mapper, plus what is in flight, is what was sent. */
  ghost predicate Conserved(f: seq<seq<string>>, a: Mapper, b: Reducer, c: seq<Packet>, m: nat, r: nat, e: nat,
                            base: int, intact: bool)
    requires m < |b.seen| && a.cursor <= |f|
  {
    && (b.stage == Joined && a.stage == Waiting ==>
          SavedCursor(a, base) <= |f| && b.seen[m] == Items(f, r, SavedCursor(a, base)))
    && (b.stage == Joined && a.stage == Joined && a.up && intact ==>
          b.seen[m] + InFlight(c, e) == Items(f, r, a.cursor))
  }

  /** A sound marker separates what its checkpoint covers from what came later. */
  ghost predicate Separates(f: seq<seq<string>>, a: Mapper, b: Reducer, c: seq<Packet>, m: nat, r: nat, e: nat)
    requires m < |b.seen|
  {
    && (forall i :: 0 <= i < |c| && CurrentMarker(c[i], e) && b.stage == Joined
                    && HasM(a, c[i].cp, e) && a.saved[c[i].cp].sound ==>
          Covers(f, r, a.saved[c[i].cp].cursor, b.seen[m] + InFlight(c[..i], e)))
    && (forall k :: HasR(b, k, e) && HasM(a, k, e) && a.saved[k].sound ==> Matches(f, a, b, k, m, r))
  }

  ghost predicate Covers(f: seq<seq<string>>, r: nat, n: nat, items: seq<Item>) {
    n <= |f| && items == Items(f, r, n)
  }

  /** The two files of checkpoint `k` agree: the reducer's counts are those of the files before the mapper's cursor. */
  ghost predicate Matches(f: seq<seq<string>>, a: Mapper, b: Reducer, k: nat, m: nat, r: nat) {
    && k in a.saved && k in b.saved && m < |b.saved[k].seen|
    && Covers(f, r, a.saved[k].cursor, b.saved[k].seen[m])
  }

  ghost predicate Channel(f: seq<seq<string>>, a: Mapper, b: Reducer, c: seq<Packet>, m: nat, r: nat, e: nat,
                          base: int, next: nat, intact: bool)
  {
    && m < |b.seen| && a.cursor <= |f|
    && Tagged(a, b, c, e, next)
    && Wired(a, b, r, e)
    && MarkersOk(a, b, c, e)
    && Conserved(f, a, b, c, m, r, e, base, intact)
    && Separates(f, a, b, c, m, r, e)
    && (forall k :: 1 <= k < next ==> Matches(f, a, b, k, m, r))
  }

  // ------------------------------------------------------------ one worker

  /** The part of the coordinator's mailbox that it will read after the worker's recovery in epoch `e`. */
  function Current(reports: seq<Report>, recovered: bool, e: nat): seq<Report> {
    if recovered then reports
    else if reports == [] then []
    else Current(reports[1..], reports[0] == RecoveryAck(e), e)
  }

  ghost predicate Recovering(l: Link, e: nat) {
    l.recovered == e || RecoveryAck(e) in l.reports
  }

  ghost predicate ReportOk(x: Report, tags: iset<nat>, atEnd: bool) {
    match x
    case CpAck(k) => k in tags
    case LastAck => 0 in tags
    case RecoveryAck(_) => true
    case Done => atEnd
  }

  /** What the coordinator knows, or is about to be told, about a worker is true; `tags` are its checkpoints in `e`. */
  ghost predicate LinkOk(l: Link, present: bool, tags: iset<nat>, atEnd: bool, e: nat, next: nat) {
    && l.recovered <= e && (forall x :: x in l.reports && x.RecoveryAck? ==> x.rid <= e)
    && (Recovering(l, e) ==> present)
    && (l.recovered == e ==> RecoveryAck(e) !in l.reports)
    && (forall i, j :: 0 <= i < j < |l.reports| && l.reports[i] == RecoveryAck(e) ==> l.reports[j] != RecoveryAck(e))
    && (forall x :: x in Current(l.reports, l.recovered == e, e) ==> ReportOk(x, tags, atEnd))
    && (l.recovered == e && l.lastCp == next ==> next in tags)
    && (l.recovered == e && l.lastDone ==> 0 in tags)
    && (l.recovered == e && l.done ==> atEnd)
    && Min(next - 1, FIRST_GUESS) <= l.lastCp <= next
  }

  ghost predicate FromOk(from: int, next: nat) {
    from == -1 || 1 <= from < next
  }

  ghost function TagsM(a: Mapper, e: nat): iset<nat> {
    iset k | HasM(a, k, e)
  }

  ghost function TagsR(b: Reducer, e: nat): iset<nat> {
    iset k | HasR(b, k, e)
  }

  ghost predicate Ending(phase: Phase) {
    phase == LastCp || phase == Exiting
  }

  /** What the stage of a worker says about the recovery id it goes by. */
  ghost predicate StageOk(stage: Stage, rid: nat, e: nat) {
    match stage
    case Waiting => rid < e
    case Joined => rid == e
    case Out => rid == 0
  }

  /** A command that waits for a mapper. */
  ghost predicate MapperCmdOk(a: Mapper, i: nat, c: Coordinator)
    requires i < |a.link.cmds|
  {
    match a.link.cmds[i]
    case Checkpoint(k, e) =>
      && e <= c.epoch && (k == 0 || k == c.nextCp)
      && (e == c.epoch <==> a.stage != Waiting)
      && (e == c.epoch ==>
            && !HasM(a, k, c.epoch)
            && (k == 0 ==> Ending(c.phase)) && (k == c.nextCp ==> c.asked)
            && forall j :: 0 <= j < i ==> a.link.cmds[j] != Checkpoint(k, e))
    case Recover(e, from) =>
      && 1 <= e <= c.epoch && FromOk(from, c.nextCp) && a.stage == Waiting
      && (e == c.epoch ==> from == c.base && c.phase == RecoverMappers && i == |a.link.cmds| - 1)
  }

  ghost predicate AtEnd(f: seq<seq<string>>, a: Mapper) {
    a.stage == Joined ==> a.cursor == |f|
  }

  ghost predicate MapperOk(f: seq<seq<string>>, a: Mapper, c: Coordinator) {
    && StageOk(a.stage, a.rid, c.epoch) && a.cursor <= |f|
    && (forall k :: k in a.saved ==> a.saved[k].cursor <= |f| && a.saved[k].epoch <= c.epoch)
    && (forall k: nat :: HasM(a, k, c.epoch) ==> a.stage != Waiting && (k == 0 || k <= c.nextCp))
    && (HasM(a, c.nextCp, c.epoch) ==> c.asked)
    && (HasM(a, 0, c.epoch) ==> Ending(c.phase) && a.saved[0].cursor == |f|)
    && (forall k :: 1 <= k < c.nextCp ==> k in a.saved)
    && (forall i :: 0 <= i < |a.link.cmds| ==> MapperCmdOk(a, i, c))
    && LinkOk(a.link, a.stage != Waiting, TagsM(a, c.epoch), AtEnd(f, a), c.epoch, c.nextCp)
    && (Ending(c.phase) ==> AtEnd(f, a))
    && (c.phase == RecoverReducers ==> a.stage == Waiting)
    && (c.phase == Cp || Ending(c.phase) ==> a.link.recovered == c.epoch)
    && (c.phase == Exiting ==> HasM(a, 0, c.epoch))
  }

  ghost predicate ReducerCmdOk(b: Reducer, i: nat, c: Coordinator)
    requires i < |b.link.cmds|
  {
    var cmd := b.link.cmds[i];
    && cmd.Recover? && cmd.rid <= c.epoch && FromOk(cmd.from, c.nextCp) && b.stage == Waiting
    && (cmd.rid == c.epoch ==> cmd.from == c.base && c.phase == RecoverReducers && i == |b.link.cmds| - 1)
  }

  ghost predicate ReducerOk(b: Reducer, mappers: nat, c: Coordinator) {
    && StageOk(b.stage, b.rid, c.epoch) && |b.seen| == mappers && Sums(b.wc, b.seen)
    && (forall k :: k in b.saved ==>
          |b.saved[k].seen| == mappers && Sums(b.saved[k].wc, b.saved[k].seen) && b.saved[k].epoch <= c.epoch)
    && (forall k :: HasR(b, k, c.epoch) ==> b.stage != Waiting)
    && (forall k :: 1 <= k < c.nextCp ==> k in b.saved)
    && (forall i :: 0 <= i < |b.link.cmds| ==> ReducerCmdOk(b, i, c))
    && LinkOk(b.link, b.stage != Waiting, TagsR(b, c.epoch), true, c.epoch, c.nextCp)
    && (c.phase != RecoverReducers ==> b.link.recovered == c.epoch)
    && (c.phase == Exiting ==> HasR(b, 0, c.epoch))
  }

  // ------------------------------------------------------------ the whole system

  /** The reducer has joined the epoch and was interrupted since. */
  ghost predicate Gone(b: Reducer) {
    b.stage == Out || (b.stage == Joined && !b.up)
  }

  /** An unsound checkpoint can never be completed: some interrupted reducer has not written it. */
  ghost predicate Unfinished(reducers: seq<Reducer>, k: nat, e: nat) {
    exists r :: 0 <= r < |reducers| && Gone(reducers[r]) && !HasR(reducers[r], k, e)
  }

  ghost predicate SoundOrUnfinished(s: System) {
    forall m, k :: 0 <= m < |s.mappers| && HasM(s.mappers[m], k, s.c.epoch) && !s.mappers[m].saved[k].sound ==>
      Unfinished(s.reducers, k, s.c.epoch)
  }

  ghost predicate CoordinatorOk(c: Coordinator) {
    && 1 <= c.nextCp && FromOk(c.base, c.nextCp) && c.resets
    && (c.phase == RecoverReducers || c.phase == RecoverMappers ==>
          Min(c.nextCp - 1, FIRST_GUESS) <= RestoredId(c.base))
  }

  ghost predicate Mappers(s: System) {
    && |s.mappers| == |s.files|
    && forall m :: 0 <= m < |s.mappers| ==> MapperOk(s.files[m], s.mappers[m], s.c)
  }

  ghost predicate Reducers(s: System) {
    forall r :: 0 <= r < |s.reducers| ==> ReducerOk(s.reducers[r], |s.mappers|, s.c)
  }

  ghost predicate Channels(s: System)
    requires Shape(s)
  {
    forall m, r :: 0 <= m < |s.mappers| && 0 <= r < REDUCERS ==>
      Channel(s.files[m], s.mappers[m], s.reducers[r], s.channels[m][r], m, r, s.c.epoch, s.c.base, s.c.nextCp,
              Intact(s.reducers))
  }

  /** What holds also while the coordinator has read a report and not yet drawn its conclusion. */
  ghost predicate Unsettled(s: System) {
    && Shape(s) && Mappers(s) && Reducers(s) && Channels(s) && SoundOrUnfinished(s) && CoordinatorOk(s.c)
  }

  ghost predicate Inv(s: System) {
    Unsettled(s) && !RoundComplete(s)
  }
}
