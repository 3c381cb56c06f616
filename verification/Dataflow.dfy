/**
 * The checkpointed word count: mappers, two reducers, FIFO channels, the coordinator's phase machine, crashes and
 * rollback. Word counts, the recovery-id filter, the mapper's cursor and the rollback id follow the code; barrier
 * alignment, the reactions to acknowledgements and the phase handlers follow the lab's specification.
 */
module Dataflow {
  import opened WordCount

  /** What a mapper sends to a reducer. */
  datatype Packet = Count(item: Item, rid: nat) | Marker(cp: nat, rid: nat)

  /** What the coordinator sends to a worker; `from` is -1 for the initial state. */
  datatype Cmd = Checkpoint(cp: nat, rid: nat) | Recover(rid: nat, from: int)

  /** What a worker sends to the coordinator. */
  datatype Report = CpAck(cp: nat) | LastAck | RecoveryAck(rid: nat) | Done

  /** The coordinator's record of a worker, with the two datagram queues between them. */
  datatype Link = Link(cmds: seq<Cmd>, reports: seq<Report>, lastCp: nat, recovered: nat, done: bool, lastDone: bool)

  /**
   * History: a worker waits for its recovery into the current epoch, has joined the epoch, or was restarted after
   * that and is out until the next rollback. No step reads it; `Allowed` does, to say which runs are meant.
   */
  datatype Stage = Waiting | Joined | Out

  /**
   * A mapper's checkpoint file. `epoch` (the recovery id under which it was written) and `sound` (all reducers were
   * taking part) are history, no step depends on them.
   */
  datatype MapperCp = MapperCp(cursor: nat, epoch: nat, sound: bool)

  /** `conns[r]` says that the connection to reducer `r` is intact. */
  datatype Mapper = Mapper(up: bool, cursor: nat, rid: nat, saved: map<nat, MapperCp>, conns: seq<bool>, stage: Stage,
                           link: Link)

  /** A reducer's checkpoint file; `seen` and `epoch` are history. */
  datatype ReducerCp = ReducerCp(wc: Counts, seen: seq<seq<Item>>, epoch: nat)

  /** `seen[m]` is the history of the counts accepted from mapper `m`. */
  datatype Reducer = Reducer(up: bool, wc: Counts, seen: seq<seq<Item>>, rid: nat, saved: map<nat, ReducerCp>,
                             stage: Stage, link: Link)

  datatype Phase = Cp | RecoverReducers | RecoverMappers | LastCp | Exiting

  /**
   * The coordinator: `epoch` is next_recovery_id, `asked` says that the markers of the current round are sent, `base`
   * is the checkpoint that the current epoch was recovered from, `alarm` that it has restarted workers and not yet
   * rolled back. `resets` is a choice: an acknowledged recovery resets last_cp_id to the rollback id, or leaves it
   * alone as `WorkerState.reset` is coded.
   */
  datatype Coordinator = Coordinator(phase: Phase, epoch: nat, nextCp: nat, asked: bool, base: int, alarm: bool,
                                     resets: bool)

  datatype System = System(files: seq<seq<seq<string>>>, mappers: seq<Mapper>, reducers: seq<Reducer>,
                           channels: seq<seq<seq<Packet>>>, c: Coordinator)

  const FIRST_GUESS := 1_000_000

  function Min(x: int, y: int): int {
    if y < x then y else x
  }

  function Least(ids: seq<nat>): nat {
    if ids == [] then FIRST_GUESS else Min(Least(ids[..|ids| - 1]), ids[|ids| - 1])
  }

  /** The id that all workers roll back to: the least of their last checkpoints, -1 if some worker has none. */
  function RollbackId(ids: seq<nat>): int {
    if Least(ids) == 0 then -1 else Least(ids)
  }

  /** The inverse of the last line of the rollback id: the initial state counts as checkpoint 0. */
  function RestoredId(from: int): nat {
    if from < 0 then 0 else from
  }

  // ------------------------------------------------------------ states

  ghost predicate Shape(s: System) {
    && |s.mappers| == |s.files| == |s.channels| && 0 < |s.mappers|
    && |s.reducers| == REDUCERS
    && (forall m :: 0 <= m < |s.channels| ==> |s.channels[m]| == REDUCERS)
    && (forall m :: 0 <= m < |s.mappers| ==> s.mappers[m].cursor <= |s.files[m]| && |s.mappers[m].conns| == REDUCERS)
    && (forall r :: 0 <= r < REDUCERS ==> |s.reducers[r].seen| == |s.mappers|)
  }

  const NEW_LINK := Link([], [], 0, 0, false, false)

  const NEW_MAPPER := Mapper(true, 0, 0, map[], [true, true], Joined, NEW_LINK)

  /** Files are lists of words; the empty word makes the source raise (see DataflowProcesses.RetryAfterEmptyWord). */
  ghost predicate NoEmptyWords(files: seq<seq<seq<string>>>) {
    forall m, i :: 0 <= m < |files| && 0 <= i < |files[m]| ==> "" !in files[m][i]
  }

  ghost predicate Init(s: System) {
    && Shape(s) && NoEmptyWords(s.files)
    && (forall m :: 0 <= m < |s.mappers| ==> s.mappers[m] == NEW_MAPPER)
    && (forall r :: 0 <= r < REDUCERS ==>
          s.reducers[r] == Reducer(true, map[], NothingSeen(|s.mappers|), 0, map[], Joined, NEW_LINK))
    && (forall m, r :: 0 <= m < |s.mappers| && 0 <= r < REDUCERS ==> s.channels[m][r] == [])
    && s.c == Coordinator(Cp, 0, 1, false, -1, false, s.c.resets)
  }

  /** All reducers have taken part in the current epoch without interruption (history, like `Stage`). */
  ghost predicate Intact(reducers: seq<Reducer>) {
    forall r :: 0 <= r < |reducers| ==> reducers[r].up && reducers[r].stage == Joined
  }

  /** All connections of the mapper are intact. */
  predicate AllOpen(a: Mapper) {
    forall r :: 0 <= r < |a.conns| ==> a.conns[r]
  }

  function Packets(items: seq<Item>, rid: nat): (p: seq<Packet>)
    ensures |p| == |items| && forall i :: 0 <= i < |p| ==> p[i] == Count(items[i], rid)
  {
    seq(|items|, i requires 0 <= i < |items| => Count(items[i], rid))
  }

  // ------------------------------------------------------------ mapper steps

  /** `upto[r]` says how much of the current file's share has been sent to reducer `r`. */
  ghost predicate Reaches(s: System, m: nat, upto: seq<nat>)
    requires Shape(s) && m < |s.mappers|
  {
    && s.mappers[m].cursor < |s.files[m]| && |upto| == REDUCERS
    && forall r :: 0 <= r < REDUCERS ==> upto[r] <= |Share(Counter(s.files[m][s.mappers[m].cursor]), r)|
  }

  /** What is sent on a broken connection is lost. */
  function Sent(s: System, m: nat, upto: seq<nat>): (row: seq<seq<Packet>>)
    requires Shape(s) && m < |s.mappers| && Reaches(s, m, upto)
    ensures |row| == REDUCERS
  {
    seq(REDUCERS, r requires 0 <= r < REDUCERS =>
      if s.mappers[m].conns[r] then s.channels[m][r] + Packets(Part(s, m, upto, r), s.mappers[m].rid)
      else s.channels[m][r])
  }

  /** What of the current file has been sent to reducer `r`. */
  function Part(s: System, m: nat, upto: seq<nat>, r: nat): seq<Item>
    requires Shape(s) && m < |s.mappers| && Reaches(s, m, upto) && r < REDUCERS
  {
    Share(Counter(s.files[m][s.mappers[m].cursor]), r)[..upto[r]]
  }

  /**
   * The word count of one file. With all connections intact, everything is sent and the cursor moves. A broken one
   * makes sends fail or vanish: any part may have been sent, and the cursor may or may not move.
   */
  ghost predicate SendStep(s: System, t: System, m: nat, upto: seq<nat>, moved: bool)
    requires Shape(s)
  {
    && m < |s.mappers| && s.mappers[m].up && Reaches(s, m, upto)
    && (AllOpen(s.mappers[m]) ==> moved && Complete(s, m, upto))
    && t == s.(
         mappers := s.mappers[m := s.mappers[m].(cursor := s.mappers[m].cursor + if moved then 1 else 0)],
         channels := s.channels[m := Sent(s, m, upto)])
  }

  ghost predicate Complete(s: System, m: nat, upto: seq<nat>)
    requires Shape(s) && m < |s.mappers| && Reaches(s, m, upto)
  {
    forall r :: 0 <= r < REDUCERS ==> upto[r] == |Share(Counter(s.files[m][s.mappers[m].cursor]), r)|
  }

  /** The stream is exhausted. */
  ghost predicate FinishStep(s: System, t: System, m: nat)
    requires Shape(s)
  {
    && m < |s.mappers| && s.mappers[m].up && s.mappers[m].cursor == |s.files[m]|
    && t == s.(mappers := s.mappers[m := s.mappers[m].(link := Told(s.mappers[m].link, Done))])
  }

  function Told(l: Link, report: Report): Link {
    l.(reports := l.reports + [report])
  }

  function Ack(cp: nat): Report {
    if cp == 0 then LastAck else CpAck(cp)
  }

  function Pop(l: Link): Link
    requires l.cmds != []
  {
    l.(cmds := l.cmds[1..])
  }

  /**
   * A checkpoint command: save the cursor, forward the marker, acknowledge. A broken connection may cut the forwarding
   * short, and then there is no acknowledgement; or the marker is lost. Commands of another epoch are ignored.
   */
  ghost predicate MapperCheckpointStep(s: System, t: System, m: nat, reach: set<nat>)
    requires Shape(s)
  {
    && m < |s.mappers|
    && var a := s.mappers[m];
    && a.up && a.link.cmds != [] && a.link.cmds[0].Checkpoint?
    && var cp, rid := a.link.cmds[0].cp, a.link.cmds[0].rid;
    if rid != a.rid then
      t == s.(mappers := s.mappers[m := a.(link := Pop(a.link))])
    else
      && (AllOpen(a) ==> 0 in reach && 1 in reach)
      && t == s.(
           mappers := s.mappers[m := Checkpointed(a, Intact(s.reducers), 0 in reach && 1 in reach)],
           channels := s.channels[m := Marked(s.channels[m], Marker(cp, rid), reach, a.conns)])
  }

  function Checkpointed(a: Mapper, sound: bool, acked: bool): Mapper
    requires a.link.cmds != [] && a.link.cmds[0].Checkpoint?
  {
    var cp := a.link.cmds[0].cp;
    a.(saved := a.saved[cp := MapperCp(a.cursor, a.rid, sound)],
       link := if acked then Told(Pop(a.link), Ack(cp)) else Pop(a.link))
  }

  function Marked(row: seq<seq<Packet>>, marker: Packet, reach: set<nat>, conns: seq<bool>): (next: seq<seq<Packet>>)
    requires |conns| == |row|
    ensures |next| == |row|
    ensures forall r :: 0 <= r < |row| ==> next[r] == if r in reach && conns[r] then row[r] + [marker] else row[r]
  {
    seq(|row|, r requires 0 <= r < |row| => if r in reach && conns[r] then row[r] + [marker] else row[r])
  }

  /** The connections that a mapper can make now. */
  function Connected(reducers: seq<Reducer>): (conns: seq<bool>)
    ensures |conns| == |reducers| && forall r :: 0 <= r < |reducers| ==> conns[r] == reducers[r].up
  {
    seq(|reducers|, r requires 0 <= r < |reducers| => reducers[r].up)
  }

  function Joining(stage: Stage, rid: nat, epoch: nat): Stage {
    if rid == epoch then Joined else stage
  }

  /**
   * Recovery of a mapper: the cursor comes from its checkpoint file, or is the start of the stream, and it connects to
   * the reducers again.
   */
  ghost predicate MapperRecoverStep(s: System, t: System, m: nat)
    requires Shape(s)
  {
    && m < |s.mappers|
    && var a := s.mappers[m];
    && a.up && a.link.cmds != [] && a.link.cmds[0].Recover?
    && var rid, from := a.link.cmds[0].rid, a.link.cmds[0].from;
    && (from < 0 || from in a.saved)
    && t == s.(mappers := s.mappers[m :=
         a.(cursor := SavedCursor(a, from), rid := rid, conns := Connected(s.reducers),
            stage := Joining(a.stage, rid, s.c.epoch), link := Told(Pop(a.link), RecoveryAck(rid)))])
  }

  function SavedCursor(a: Mapper, from: int): nat {
    if from in a.saved then a.saved[from].cursor else 0
  }

  // ------------------------------------------------------------ reducer steps

  /** `WC.handle`: a count of another epoch leaves the state alone. `m` is the sender. */
  function Handled(b: Reducer, m: nat, p: Packet): Reducer
    requires m < |b.seen|
  {
    if p.Count? && p.rid == b.rid then
      b.(wc := Add(b.wc, p.item), seen := b.seen[m := b.seen[m] + [p.item]])
    else b
  }

  function Dequeue(s: System, m: nat, r: nat): seq<seq<seq<Packet>>>
    requires Shape(s) && m < |s.mappers| && r < REDUCERS && s.channels[m][r] != []
  {
    s.channels[m := s.channels[m][r := s.channels[m][r][1..]]]
  }

  /** A reducer takes the next packet of a channel. A marker of its own epoch blocks the channel instead. */
  ghost predicate DeliverStep(s: System, t: System, m: nat, r: nat)
    requires Shape(s)
  {
    && m < |s.mappers| && r < REDUCERS && s.reducers[r].up && s.channels[m][r] != []
    && var p := s.channels[m][r][0];
    && !(p.Marker? && p.rid == s.reducers[r].rid)
    && t == s.(reducers := s.reducers[r := Handled(s.reducers[r], m, p)], channels := Dequeue(s, m, r))
  }

  /** All channels into reducer `r` are blocked by the marker of the same checkpoint. */
  ghost predicate Aligned(s: System, r: nat, cp: nat)
    requires Shape(s) && r < REDUCERS
  {
    forall m :: 0 <= m < |s.mappers| ==> s.channels[m][r] != [] && s.channels[m][r][0] == Marker(cp, s.reducers[r].rid)
  }

  /** Alignment is complete: save the counts, acknowledge, and unblock all channels. */
  ghost predicate AlignStep(s: System, t: System, r: nat, cp: nat)
    requires Shape(s)
  {
    && r < REDUCERS && s.reducers[r].up && Aligned(s, r, cp)
    && var b := s.reducers[r];
    t == s.(
      reducers := s.reducers[r :=
        b.(saved := b.saved[cp := ReducerCp(b.wc, b.seen, b.rid)], link := Told(b.link, Ack(cp)))],
      channels := seq(|s.channels|, m requires 0 <= m < |s.channels| => s.channels[m][r := s.channels[m][r][1..]]))
  }

  ghost predicate ReducerRecoverStep(s: System, t: System, r: nat)
    requires Shape(s)
  {
    && r < REDUCERS
    && var b := s.reducers[r];
    && b.up && b.link.cmds != [] && b.link.cmds[0].Recover?
    && var rid, from := b.link.cmds[0].rid, b.link.cmds[0].from;
    && (from < 0 || from in b.saved)
    && t == s.(reducers := s.reducers[r := Restored(b, rid, from, |s.mappers|, s.c.epoch)])
  }

  function Restored(b: Reducer, rid: nat, from: int, mappers: nat, epoch: nat): Reducer
    requires b.link.cmds != []
  {
    var link := Told(Pop(b.link), RecoveryAck(rid));
    var stage := Joining(b.stage, rid, epoch);
    if from in b.saved then
      b.(wc := b.saved[from].wc, seen := b.saved[from].seen, rid := rid, stage := stage, link := link)
    else
      b.(wc := map[], seen := NothingSeen(mappers), rid := rid, stage := stage, link := link)
  }

  // ------------------------------------------------------------ crashes

  /** A mapper dies, perhaps in the middle of a file. */
  ghost predicate MapperCrashStep(s: System, t: System, m: nat, upto: seq<nat>)
    requires Shape(s)
  {
    && m < |s.mappers| && s.mappers[m].up
    && var mappers := s.mappers[m := s.mappers[m].(up := false)];
    if Reaches(s, m, upto) then t == s.(mappers := mappers, channels := s.channels[m := Sent(s, m, upto)])
    else t == s.(mappers := mappers)
  }

  function Disconnected(mappers: seq<Mapper>, r: nat): (next: seq<Mapper>)
    requires forall m :: 0 <= m < |mappers| ==> r < |mappers[m].conns|
    ensures |next| == |mappers|
    ensures forall m :: 0 <= m < |mappers| ==> next[m] == mappers[m].(conns := mappers[m].conns[r := false])
  {
    seq(|mappers|, m requires 0 <= m < |mappers| => mappers[m].(conns := mappers[m].conns[r := false]))
  }

  /** A reducer dies, and with it all connections to it. */
  ghost predicate ReducerCrashStep(s: System, t: System, r: nat)
    requires Shape(s)
  {
    && r < REDUCERS && s.reducers[r].up
    && t == s.(reducers := s.reducers[r := s.reducers[r].(up := false)], mappers := Disconnected(s.mappers, r))
  }

  // ------------------------------------------------------------ coordinator steps

  /** The coordinator reads a worker's next report. */
  function Heard(l: Link, c: Coordinator): Link
    requires l.reports != []
  {
    var rest := l.(reports := l.reports[1..]);
    match l.reports[0]
    case CpAck(cp) => if c.phase == Cp && cp == c.nextCp then rest.(lastCp := cp) else rest
    case LastAck => if c.phase == LastCp then rest.(lastDone := true) else rest
    case RecoveryAck(rid) =>
      if rid == c.epoch then
        rest.(recovered := rid, lastCp := if c.resets then RestoredId(c.base) else l.lastCp,
              done := false, lastDone := false)
      else rest
    case Done => rest.(done := true)
  }

  function Commanded(mappers: seq<Mapper>, cmd: Cmd): (next: seq<Mapper>)
    ensures |next| == |mappers|
    ensures forall m :: 0 <= m < |mappers| ==>
      next[m] == mappers[m].(link := mappers[m].link.(cmds := mappers[m].link.cmds + [cmd]))
  {
    seq(|mappers|, m requires 0 <= m < |mappers| =>
      mappers[m].(link := mappers[m].link.(cmds := mappers[m].link.cmds + [cmd])))
  }

  ghost predicate RoundComplete(s: System) {
    && (forall m :: 0 <= m < |s.mappers| ==> s.mappers[m].link.lastCp == s.c.nextCp)
    && (forall r :: 0 <= r < |s.reducers| ==> s.reducers[r].link.lastCp == s.c.nextCp)
  }

  ghost predicate StreamsDone(s: System) {
    forall m :: 0 <= m < |s.mappers| ==> s.mappers[m].link.done
  }

  ghost predicate ReducersRecovered(s: System) {
    forall r :: 0 <= r < |s.reducers| ==> s.reducers[r].link.recovered == s.c.epoch
  }

  ghost predicate MappersRecovered(s: System) {
    forall m :: 0 <= m < |s.mappers| ==> s.mappers[m].link.recovered == s.c.epoch
  }

  ghost predicate AllFinal(s: System) {
    && (forall m :: 0 <= m < |s.mappers| ==> s.mappers[m].link.lastDone)
    && (forall r :: 0 <= r < |s.reducers| ==> s.reducers[r].link.lastDone)
  }

  /** The phase change, if any, that a report brings about. */
  ghost function Settled(s: System): System {
    match s.c.phase
    case Cp =>
      if RoundComplete(s) then s.(c := s.c.(nextCp := s.c.nextCp + 1, asked := false))
      else if StreamsDone(s) then
        s.(c := s.c.(phase := LastCp), mappers := Commanded(s.mappers, Checkpoint(0, s.c.epoch)))
      else s
    case RecoverReducers =>
      if ReducersRecovered(s) then
        s.(c := s.c.(phase := RecoverMappers), mappers := Commanded(s.mappers, Recover(s.c.epoch, s.c.base)))
      else s
    case RecoverMappers => if MappersRecovered(s) then s.(c := s.c.(phase := Cp)) else s
    case LastCp => if AllFinal(s) then s.(c := s.c.(phase := Exiting)) else s
    case Exiting => s
  }

  function HearMapper(s: System, m: nat): System
    requires m < |s.mappers| && s.mappers[m].link.reports != []
  {
    s.(mappers := s.mappers[m := s.mappers[m].(link := Heard(s.mappers[m].link, s.c))])
  }

  function HearReducer(s: System, r: nat): System
    requires r < |s.reducers| && s.reducers[r].link.reports != []
  {
    s.(reducers := s.reducers[r := s.reducers[r].(link := Heard(s.reducers[r].link, s.c))])
  }

  ghost predicate HearMapperStep(s: System, t: System, m: nat) {
    m < |s.mappers| && s.mappers[m].link.reports != [] && t == Settled(HearMapper(s, m))
  }

  ghost predicate HearReducerStep(s: System, t: System, r: nat) {
    r < |s.reducers| && s.reducers[r].link.reports != [] && t == Settled(HearReducer(s, r))
  }

  /** The checkpoint phase: ask all mappers for the next checkpoint. */
  ghost predicate AskStep(s: System, t: System) {
    && s.c.phase == Cp && !s.c.asked
    && t == s.(c := s.c.(asked := true), mappers := Commanded(s.mappers, Checkpoint(s.c.nextCp, s.c.epoch)))
  }

  function LastCps(s: System): (ids: seq<nat>)
    ensures |ids| == |s.mappers| + |s.reducers|
    ensures forall m :: 0 <= m < |s.mappers| ==> ids[m] == s.mappers[m].link.lastCp
    ensures forall r :: 0 <= r < |s.reducers| ==> ids[|s.mappers| + r] == s.reducers[r].link.lastCp
  {
    seq(|s.mappers|, m requires 0 <= m < |s.mappers| => s.mappers[m].link.lastCp)
    + seq(|s.reducers|, r requires 0 <= r < |s.reducers| => s.reducers[r].link.lastCp)
  }

  function Leaving(stage: Stage): Stage {
    if stage == Waiting then Waiting else Out
  }

  function RestartedMapper(a: Mapper, reducers: seq<Reducer>): Mapper {
    a.(up := true, cursor := 0, rid := 0, conns := Connected(reducers), stage := Leaving(a.stage),
       link := a.link.(cmds := []))
  }

  function RestartedReducer(b: Reducer): Reducer {
    b.(up := true, wc := map[], seen := NothingSeen(|b.seen|), rid := 0, stage := Leaving(b.stage),
       link := b.link.(cmds := []))
  }

  /** After a restart a reducer listens on a new socket; what was on its way to the old one is lost. */
  function Reconnected(channels: seq<seq<seq<Packet>>>, r: nat): (next: seq<seq<seq<Packet>>>)
    requires forall m :: 0 <= m < |channels| ==> r < |channels[m]|
    ensures |next| == |channels|
    ensures forall m :: 0 <= m < |channels| ==> next[m] == channels[m][r := []]
  {
    seq(|channels|, m requires 0 <= m < |channels| => channels[m][r := []])
  }

  /** Missed heartbeats: the health monitor starts a new process for a dead mapper, which begins to work at once. */
  ghost predicate RestartMapperStep(s: System, t: System, m: nat)
    requires Shape(s)
  {
    && s.c.phase != Exiting && m < |s.mappers| && !s.mappers[m].up
    && t == s.(mappers := s.mappers[m := RestartedMapper(s.mappers[m], s.reducers)], c := s.c.(alarm := true))
  }

  ghost predicate RestartReducerStep(s: System, t: System, r: nat)
    requires Shape(s)
  {
    && s.c.phase != Exiting && r < REDUCERS && !s.reducers[r].up
    && t == s.(reducers := s.reducers[r := RestartedReducer(s.reducers[r])], channels := Reconnected(s.channels, r),
               c := s.c.(alarm := true))
  }

  function Lagging(mappers: seq<Mapper>): (next: seq<Mapper>)
    ensures |next| == |mappers|
    ensures forall m :: 0 <= m < |mappers| ==> next[m] == mappers[m].(stage := Waiting)
  {
    seq(|mappers|, m requires 0 <= m < |mappers| => mappers[m].(stage := Waiting))
  }

  function Rallied(reducers: seq<Reducer>, cmd: Cmd): (next: seq<Reducer>)
    ensures |next| == |reducers|
    ensures forall r :: 0 <= r < |reducers| ==> next[r] == RalliedReducer(reducers[r], cmd)
  {
    seq(|reducers|, r requires 0 <= r < |reducers| => RalliedReducer(reducers[r], cmd))
  }

  function RalliedReducer(b: Reducer, cmd: Cmd): Reducer {
    b.(stage := Waiting, link := b.link.(cmds := b.link.cmds + [cmd]))
  }

  /**
   * Some time after restarts the coordinator picks the rollback id, opens a new epoch and asks the reducers to recover.
   */
  ghost predicate RollbackStep(s: System, t: System) {
    s.c.phase != Exiting && s.c.alarm && RollsBack(s, t, RollbackId(LastCps(s)))
  }

  ghost predicate RollsBack(s: System, t: System, base: int) {
    t == s.(
      c := s.c.(phase := RecoverReducers, epoch := s.c.epoch + 1, asked := false, base := base, alarm := false),
      mappers := Lagging(s.mappers),
      reducers := Rallied(s.reducers, Recover(s.c.epoch + 1, base)))
  }

  // ------------------------------------------------------------ runs

  datatype Step =
    | Send(m: nat, upto: seq<nat>, moved: bool)
    | Finish(m: nat)
    | MapperCheckpoint(m: nat, reach: set<nat>)
    | MapperRecover(m: nat)
    | Deliver(m: nat, r: nat)
    | Align(r: nat, cp: nat)
    | ReducerRecover(r: nat)
    | MapperCrash(m: nat, upto: seq<nat>)
    | ReducerCrash(r: nat)
    | HearM(m: nat)
    | HearR(r: nat)
    | Ask
    | RestartM(m: nat)
    | RestartR(r: nat)
    | Rollback

  ghost predicate NextStep(s: System, t: System, step: Step)
    requires Shape(s)
  {
    match step
    case Send(m, upto, moved) => SendStep(s, t, m, upto, moved)
    case Finish(m) => FinishStep(s, t, m)
    case MapperCheckpoint(m, reach) => MapperCheckpointStep(s, t, m, reach)
    case MapperRecover(m) => MapperRecoverStep(s, t, m)
    case Deliver(m, r) => DeliverStep(s, t, m, r)
    case Align(r, cp) => AlignStep(s, t, r, cp)
    case ReducerRecover(r) => ReducerRecoverStep(s, t, r)
    case MapperCrash(m, upto) => MapperCrashStep(s, t, m, upto)
    case ReducerCrash(r) => ReducerCrashStep(s, t, r)
    case HearM(m) => HearMapperStep(s, t, m)
    case HearR(r) => HearReducerStep(s, t, r)
    case Ask => AskStep(s, t)
    case RestartM(m) => RestartMapperStep(s, t, m)
    case RestartR(r) => RestartReducerStep(s, t, r)
    case Rollback => RollbackStep(s, t)
  }

  ghost predicate Next(s: System, t: System, step: Step) {
    Shape(s) && NextStep(s, t, step)
  }

  /** `run[i]` becomes `run[i + 1]` by `steps[i]`. */
  ghost predicate Run(run: seq<System>, steps: seq<Step>) {
    && |run| == |steps| + 1 && Init(run[0])
    && forall i {:trigger steps[i]} :: 0 <= i < |steps| ==> Next(run[i], run[i + 1], steps[i])
  }

  /** What a mapper does between recoveries. */
  datatype Kind = Sending | Finishing | RoundCp | FinalCp | Dying

  /**
   * What a run may contain: in the first epoch, whose id restarted processes share, a mapper that was restarted takes
   * before the rollback only steps of the kinds in `may`; and workers crash only if `crashes`.
   */
  datatype Rules = Rules(may: set<Kind>, crashes: bool)

  /** A mapper that was restarted in the first epoch, before the rollback. */
  ghost predicate Early(s: System, m: nat) {
    s.c.epoch == 0 && m < |s.mappers| && s.mappers[m].stage == Out
  }

  ghost predicate Allowed(s: System, step: Step, rules: Rules)
    requires Shape(s)
  {
    match step
    case Send(m, _, _) => Early(s, m) ==> Sending in rules.may
    case Finish(m) => Early(s, m) ==> Finishing in rules.may
    case MapperCheckpoint(m, _) =>
      Early(s, m) && s.mappers[m].link.cmds != [] && s.mappers[m].link.cmds[0].Checkpoint? ==>
        (if s.mappers[m].link.cmds[0].cp == 0 then FinalCp else RoundCp) in rules.may
    case MapperCrash(m, upto) => rules.crashes && (Early(s, m) && Reaches(s, m, upto) ==> Dying in rules.may)
    case ReducerCrash(_) => rules.crashes
    case _ => true
  }

  ghost predicate Follows(run: seq<System>, steps: seq<Step>, rules: Rules)
    requires |run| == |steps| + 1
  {
    forall i {:trigger steps[i]} :: 0 <= i < |steps| ==> Shape(run[i]) && Allowed(run[i], steps[i], rules)
  }

  /** Some run in which restarted mappers take only the given kinds of steps in the first epoch leads to the state. */
  ghost predicate Reachable(s: System, may: set<Kind>) {
    exists run, steps :: Run(run, steps) && run[|steps|] == s && Follows(run, steps, Rules(may, true))
  }
}
