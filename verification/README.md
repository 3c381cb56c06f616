# Verified models of the storage, dataflow and dynamic-programming labs

This project models the hardest algorithms of the repository in Dafny and proves what they promise: a chain-replicated
store, a Bayou-style replicated log, a word count with aligned checkpoints and rollback, a blocked dynamic program, and
the smaller algorithms around them (message framing, the evaluation script's graph traversal, map-reduce). `dafny verify
dfyconfig.toml` checks everything.

## What is modelled

**Bayou (labs/lab4), files `Bayou*.dfy`.** `BayouLog` holds timestamps, version vectors and logs; `BayouStorage` the
specification of `apply` and `anti_entropy` on values and the in-place classes that refine it; `BayouCluster` the
cluster as a transition system in which a client write, a request, its answer and the delivery of that answer are
separate steps, so that answers may be stale; `BayouTheorems` what holds in every run, and convergence; `BayouLive` that
a write and convergence are always possible; `BayouServer` the server object. `apply`, `anti_entropy`, `do`, `undo` and
the primary's special treatment of a reply are not coded in the repository: they are specified here as
storage-ec.md:139-170, labs/lab4/starter/README.md:48-52 and labs/lab4/starter/tests/test_storage.py:34-145 describe
them. A version vector is a map from server name to timestamp.

**Chain replication (labs/lab3), files `Chain*.dfy` and `ClientLog.dfy`.** Each client thread's SET is a sequence of
steps (write at one server, forward, reply up one server, return), freely interleaved with those of other threads, on a
chain of any length. `ClientLog` is the history parser and the sequential specification of lcheck/main.go.
`ChainTheorems` proves linearizability by the tail's accesses. Replica agreement is false in general, because two SETs
can overtake each other between servers: `ChainExact.AgreementExact` gives the exact condition for complete logs of
SETs, and `ChainOrder` the discipline under which write logs are prefixes of each other. A GET of an absent key raises
an exception at the tail and gets no successful reply.

**Blocked longest common subsequence (demos/ray_lcs.py), files `Lcs*.dfy`.** The comments in that file promise the
longest common subsequence of the two strings. The code computes it for the strings with their last characters moved to
the front: `X[left-1]` wraps around at zero, and the zero written for row and column zero is always overwritten. The
model follows the code; `RotationHarmless` says exactly for which last characters the difference never shows.

**Checkpointed word count (labs/lab2), files `WordCount.dfy` and `Dataflow*.dfy`.** Any number of mappers, two reducers,
FIFO channels, markers, the coordinator's phase machine, crashes in the middle of a file, restarts and rollback. Coded in
the repository and followed here: the mapper's cursor and send loop, the routing of words, the recovery-id filter, the
checkpoint writers, the rollback id, the marking of finished mappers. Not coded there and specified here from
labs/lab2/README.md:202-207 and 236-319, compute-flink.md:26-47 and the lab's phase diagram: barrier alignment, the
handlers of the checkpoint and recovery commands, the reactions to acknowledgements, and the phase handlers. Where the
documents leave room the model fixes: recovery ids start at 1 (the diagram increments the id before using it); a
checkpoint acknowledgement counts only in the checkpoint phase and for the round in progress; a mapper connects to the
reducers when it starts and when it recovers; the final checkpoint is entered from the checkpoint phase only
(DoneRecvMsg.update, as coded, exits at once and its own comment asks for the final checkpoint; `DataflowProcesses`
models the method as coded, `Dataflow` the phase as specified). `stage`, `epoch`, `sound` and `seen` fields record
history: no step reads them, only `Allowed`, which says which runs are meant, and the proofs do.

Two points decide whether the word count is right, and the model keeps both sides of each.
- The health monitor restarts a dead worker first and reacts to the failure later (labs/lab2/coordinator.py:171-186), so
  restart and rollback are separate steps with anything in between. A restarted process has recovery id 0, which is also
  the id of the first epoch. Runs are therefore classified by the set `may` of the kinds of steps that a mapper restarted
  in the first epoch takes before the rollback: sending, reporting the end of its stream, taking the checkpoint of a
  round, taking the final checkpoint, dying in the middle of a file. Restarted reducers, and restarts in later epochs,
  are free.
- `WorkerState.reset` (labs/lab2/coordinator.py:37-39) leaves the last checkpoint id alone. The field `resets` says
  whether an acknowledged recovery resets it to the rollback id, or not, as coded.

`DataflowLimits.GuaranteedExactly` proves, for every set of files with a word in it and every `may` and `resets`: all
completed checkpoints of all runs are consistent if and only if `resets` holds and `may` lacks the checkpoint of a round,
and all runs count exactly once if and only if `may` also lacks the final checkpoint. What else restarted mappers do, as
the coded ones do by counting on at once, makes no difference. `DataflowBase` holds what is true of all runs,
`DataflowSteps` and `DataflowLate` the invariant behind the guarantees, `DataflowLive` and `DataflowFinish` that nothing
gets stuck.

**Smaller algorithms.** `Framing` (labs/lab3/core, labs/lab2/message.py) over a socket that the network cuts at
arbitrary places, `Evaluation` (labs/lab2/evaluation/lab2_eval.py) and `MapReduce` (demos/ray_mr.py). `Lists` removes
repetitions from lists, for the order of a counter's words and of the tests.

## Model

| member | source | states |
|---|---|---|
| BayouLog.LogicalTimeTotalOrder | labs/lab4/starter/bayou/storage.py:27-37 | Timestamps are totally ordered: of any two, exactly one is smaller or they are equal, and the order is transitive. The smaller clock reading is the smaller timestamp, and among equal readings the name decides (also storage-ec.md:98-105). |
| BayouLog.NameLessIsLexicographic | labs/lab4/starter/bayou/storage.py:37 | Names are compared as in a dictionary: the first different character decides, or a proper prefix is smaller. |
| BayouLog.RaiseAllIsMax | labs/lab4/starter/bayou/storage.py:89-93 | Advancing a vector by a list of writes gives, per origin, the maximum of the old time and the writes' times, and it is attained. |
| BayouLog.RaiseAllUnique | labs/lab4/starter/bayou/storage.py:89-93 | That maximum determines the vector: any vector that bounds the old one and the writes and is attained is the result, so the order of the writes does not matter. |
| BayouLog.NewsIsAfter | labs/lab4/starter/bayou/storage.py:147 | Playing writes in origin order and skipping known ones plays exactly those that the vector did not cover at the start. |
| BayouLog.NewsExactly | labs/lab4/starter/bayou/storage.py:143-147 | For any list, also out of order: a write is played if and only if the vector does not cover it and no newer write of its origin precedes it in the list. |
| BayouLog.InsertAllSorted | labs/lab4/starter/bayou/storage.py:126 | Merging tentative writes keeps the log in the order of clock readings, with equal readings in the order of the names, and with every old and new write in it once and nothing else. |
| BayouStorage.ChkInvariants | labs/lab4/starter/bayou/storage.py:133-141 | In every valid storage c is not ahead of f; with an empty tentative log c = f and the states are equal; the vectors cover what the logs hold, and no entry is in both logs. |
| BayouStorage.AppliedValid | storage-ec.md:165-170 | Applying any commits and tentative writes, in any order and with duplicates, yields a valid storage: states equal replays from scratch, logs sorted and disjoint, vectors exact. Which writes it then holds is the next row. |
| BayouStorage.AppliedExactly | labs/lab4/starter/bayou/storage.py:143-151 | Exactly which writes the two logs hold after apply: a received write is lost if and only if it is known already or its list names a newer one of the same origin before it, and an old tentative one leaves the tentative log if and only if the new committed vector covers it. |
| BayouStorage.AppliedTentatives | storage-ec.md:165-170 | The new tentative log is sorted and holds the old entries that the new committed vector does not cover and the received ones that are played, see AppliedExactly; f is raised by exactly these. |
| BayouStorage.AppliedOrder | labs/lab4/starter/bayou/storage.py:126 | After apply, clock readings never decrease along the tentative log, and entries with equal readings are in lexicographic order of their names. |
| BayouStorage.TentativeWrite | labs/lab4/starter/bayou/storage.py:158-160 | A fresh client write joins the tentative log, raises f at its origin, and changes neither the committed log nor c. |
| BayouStorage.CommittedWrite | labs/lab4/starter/bayou/storage.py:154-156 | A fresh write at a storage without tentative writes is appended to the committed log and raises both vectors. |
| BayouStorage.AppliedIdempotent | labs/lab4/starter/tests/test_storage.py:59-99 | Applying the same reply twice equals applying it once. |
| BayouStorage.VectorTime.Advance | labs/lab4/starter/bayou/storage.py:89-93 | Sets one origin's time and no other; going back in time is the caller's error, as in the code's assertion. |
| BayouStorage.VectorTime.IsVtimeEarlier | labs/lab4/starter/bayou/storage.py:99-105 | The loop over the other vector's origins decides pointwise order. |
| BayouStorage.Do | labs/lab4/starter/README.md:48-52 | Appends one character (specified, not coded). |
| BayouStorage.Undo | labs/lab4/starter/README.md:48-52 | Removes the last character: the inverse of Do (specified, not coded). |
| BayouStorage.Storage.Rollback | storage-ec.md:165-166 | Undoing the tentative log from the end brings the tentative state back to the committed one. |
| BayouStorage.Storage.PlayCommits | storage-ec.md:166-170 | Playing commits in place appends exactly the unknown ones and keeps both states equal to the replay of the committed log. |
| BayouStorage.Storage.DropCommitted | storage-ec.md:167-168 | The tentative log keeps exactly the entries that the committed vector does not cover, in order. |
| BayouStorage.Storage.MergeTentatives | storage-ec.md:168-169 | Merging in place equals inserting the unknown received writes at their timestamps; a log in time order stays in time order. |
| BayouStorage.Storage.Apply | labs/lab4/starter/bayou/storage.py:143-151 | The five in-place phases (undo, commit, drop, merge, replay) refine the from-scratch specification Applied: logs, vectors and both states. |
| BayouStorage.Storage.Commit | labs/lab4/starter/bayou/storage.py:154-156 | Commits refine Applied with no tentative writes. |
| BayouStorage.Storage.Tentative | labs/lab4/starter/bayou/storage.py:158-160 | Tentative writes refine Applied with no commits. |
| BayouStorage.Storage.AntiEntropy | storage-ec.md:164-165 | A request is refused if and only if each of the two committed vectors is ahead of the other somewhere. Otherwise the reply holds exactly the committed entries ahead of c and the tentative ones ahead of f. Both vectors name the same servers. |
| BayouCluster.CutsOrdered | storage-ec.md:188 | Two prefixes of the primary's log have comparable vectors. |
| BayouCluster.MissingPiece | labs/lab4/starter/bayou/server.py:51-57 | A reply's committed part is the contiguous piece of the primary's order between the requester's and the answerer's knowledge. |
| BayouCluster.WriteKeepsInv | labs/lab4/starter/bayou/server.py:63-76 | A client write at any server, with a clock ahead of its own writes, keeps the cluster invariant. |
| BayouCluster.AnswerKeepsInv | labs/lab4/starter/bayou/server.py:51-57 | Answering an outstanding request, however old, keeps the cluster invariant. |
| BayouCluster.DeliverKeepsInv | labs/lab4/starter/bayou/server.py:78-103 | Applying a reply, however stale and however often delivered, keeps the cluster invariant. |
| BayouCluster.RunKeepsInv | labs/lab4/starter/bayou/server.py:93-108 | Every state of every run satisfies the cluster invariant. |
| BayouTheorems.CommittedIsPrefix | storage-ec.md:184-189 | In every reachable state each committed log and committed state is a prefix of the primary's, and the primary has c = f, nothing tentative and equal states. |
| BayouTheorems.CommitsComparable | storage-ec.md:188 | Any two servers' committed logs are prefix-comparable and their committed vectors compare the same way. |
| BayouTheorems.VectorsAreKnowledge | storage-ec.md:140-145 | A server knows exactly the issued writes that its f covers, and has committed exactly those that its c covers. |
| BayouTheorems.RequestsNeverFail | labs/lab4/starter/bayou/server.py:51-57 | No request of a reachable cluster is refused. |
| BayouTheorems.ReplyIsExactlyMissing | storage-ec.md:164-165 | The reply holds exactly what the answerer has and the requester's vectors do not cover, split into committed and tentative. |
| BayouTheorems.FreshPullIsUnion | labs/lab4/starter/bayou/server.py:78-103 | After a fresh pull the requester knows exactly the union of what both servers knew. |
| BayouTheorems.RunIsForward | labs/lab4/starter/bayou/server.py:93-108 | Along every run committed logs only grow and knowledge is never lost. |
| BayouTheorems.PullTransfers | labs/lab4/starter/bayou/server.py:99-103 | A completed pull, whatever else happens in between, transfers everything the answerer knew when the pull began. |
| BayouTheorems.Convergence | storage-ec.md:181-182 | Without new writes, once the primary has pulled from everyone and then everyone from the primary, all servers hold equal logs with every write committed, no tentative writes, equal vectors and equal states. |
| BayouLive.AnyoneWrites | labs/lab4/starter/bayou/server.py:63-76 | In every reachable state any server takes a write with a clock ahead of its own writes: at the primary its character ends both strings, elsewhere it joins the tentative log and the committed string stays; no other server changes. |
| BayouLive.CanAlwaysConverge | storage-ec.md:181-182 | From every reachable state, whatever is under way or was lost, some run of pulls alone leads to equal stores with every write committed. |
| BayouServer.Server.ProcessAppReq | labs/lab4/starter/bayou/server.py:63-76 | A client write is committed at the primary and tentative elsewhere; the storage becomes the cluster model's Written. |
| BayouServer.Server.GetString | labs/lab4/starter/bayou/app.py:75-84 | Reports the replays of the committed log and of the whole log. |
| BayouServer.Server.ApplyReply | labs/lab4/starter/bayou/server.py:81-90 | The storage becomes the cluster model's Received; the primary commits the tentative half (specified by storage-ec.md:139-140). |
| BayouServer.Server.PullFrom | labs/lab4/starter/bayou/server.py:99-103 | One anti-entropy exchange between two in-place servers is an answered request of the cluster model. |
| ClientLog.ParseLog | labs/lab3/lcheck/main.go:99-131 | The scanner loop with its id counter and worker map computes the history Parsed. |
| ClientLog.ParsedWellFormed | labs/lab3/README.md:138-140 | If in the log itself each worker alternates calls and matching returns, then in the parsed history call ids are distinct and each return carries the id of its worker's open call, after that call. |
| ClientLog.ParserTracks | labs/lab3/lcheck/main.go:99-131 | For every log: procIdMap holds exactly the workers whose last line is a call, each with the id of that very call's event. |
| ClientLog.AlternatesIsFitting | labs/lab3/lcheck/main.go:102-129 | A log alternates, read line by line without a parser, if and only if every return that the parser meets answers the event in procIdMap and every call finds none there. |
| ClientLog.ParsedKeepsOrder | labs/lab3/lcheck/main.go:102-129 | The history is the recognised lines, one event each, in log order, with their worker, kind, key and value. |
| ClientLog.ParsedIds | labs/lab3/lcheck/main.go:99-131 | For every log, well-formed or not: calls are numbered from zero, and a return has the number of its worker's open call, or zero if there is none. |
| ClientLog.SpecRunReadsLastPuts | labs/lab3/lcheck/main.go:36-55 | A list of operations is a run of crModel if and only if each get returned the value of the last put of its key before it, or "0" if there is none. |
| ChainReplication.TrackedRealTime | storage-craq.md:85-87 | A list that grows only with operations whose call is open respects real time: what returned before a call is before it. |
| ChainReplication.InvokeKeepsInv | labs/lab3/cr/cr_cluster.py:18-34 | Routing a SET to the head or a GET to the tail keeps the invariant. |
| ChainReplication.WriteLocalKeepsInv | labs/lab3/cr/cr_server.py:88-97 | One server's dictionary write, in any interleaving with other threads, keeps the invariant. |
| ChainReplication.ReplyUpKeepsInv | labs/lab3/cr/cr_server.py:92-95 | The blocking call's reply moving up one server keeps the invariant. |
| ChainReplication.ReadTailKeepsInv | labs/lab3/cr/cr_server.py:81-86 | A GET at the tail, successful or failing for an absent key, keeps the invariant. |
| ChainReplication.NextKeepsInv | labs/lab3/cr/cr_server.py:72-97 | Every interleaved step of every thread keeps the invariant. |
| ChainReplication.ReachableInv | labs/lab3/cr/cr_server.py:72-97 | The invariant holds in every reachable state, for every chain length of at least one. |
| ChainTheorems.ChainLinearizable | labs/lab3/lcheck/main.go:36-55 | The client history of every reachable state is linearizable against crModel (see SpecRunReadsLastPuts), and every successful response is in the linearization; the model's default value is never used. |
| ChainTheorems.WritersArePrefix | labs/lab3/cr/cr_server.py:88-97 | The servers that have written a SET form a prefix of the chain. |
| ChainTheorems.AcknowledgedEverywhere | labs/lab3/cr/cr_server.py:92-97 | Once a client has seen OK for a SET, every server has performed this very SET, by its event id. |
| ChainTheorems.DictIsLastWrite | labs/lab3/cr/cr_server.py:91 | In every reachable state a server's dictionary holds for each key the last value written at that server, and only keys written there. |
| ChainTheorems.AgreementAtQuiescence | labs/lab3/cr/cr_server.py:88-97 | With nothing on its way, all replicas agree on a key if the SETs that no later SET follows carry one value. |
| ChainExact.UndisturbedSet | labs/lab3/cr/cr_server.py:88-97 | A SET that no other thread disturbs stores the pair at every server and at no other key, and logs exactly its call and return. |
| ChainExact.UndisturbedGet | labs/lab3/cr/cr_server.py:81-86 | A GET that no other thread disturbs, whatever else is waiting, is answered with the tail's value and logs its call and return; for a key that the tail lacks it gets no answer. No server changes. |
| ChainExact.AgreementExact | labs/lab3/cr/cr_server.py:88-97 | Exactly when replicas agree: for a complete SET-only log and a chain of at least two servers, all states that produce this log agree on the key if and only if its unfollowed SETs carry one value. |
| ChainOrder.KeyLogsArePrefixes | labs/lab3/cr/cr_server.py:88-97 | If SETs of a key never overlap, the key's write log of a later server is a prefix of an earlier one's. |
| ChainOrder.NonOverlappingAgree | labs/lab3/cr/cr_server.py:88-97 | If SETs of a key never overlap, all replicas agree on it at quiescence. |
| ChainServer.CRServer.ProcessReq | labs/lab3/cr/cr_server.py:72-97 | The recursive call along linked servers stores a SET at this server and all later ones, and answers a GET from the tail's dictionary. |
| ChainServer.CrCluster.constructor | labs/lab3/cr/cr_cluster.py:37-71 | Four servers linked a, b, c, d with empty dictionaries. |
| ChainServer.CrClient.Set | labs/lab3/cr/cr_cluster.py:18-23 | A SET goes to the head and, undisturbed, reaches every dictionary. |
| ChainServer.CrClient.Get | labs/lab3/cr/cr_cluster.py:25-34 | A GET goes to the tail, changes nothing, and succeeds exactly for a key the tail holds. |
| LcsSpec.LcsIsLongest | demos/ray_lcs.py:31-43 | The recurrence's number is the length of some common subsequence and an upper bound for all of them, and no other number is. |
| LcsSpec.RotationError | demos/ray_lcs.py:36-43 | Rotating both strings changes the answer by at most one, and not at all when they end in the same character. |
| LcsSpec.RotationHarmless | demos/ray_lcs.py:38-40 | The code's answer is the promised one for all strings with given last characters if and only if those are equal. |
| LcsSpec.RotationCounterexample | demos/ray_lcs.py:31-33 | For any two different characters c and d, the strings dc and dcd have a common subsequence of length 2 while the code computes 1. |
| LcsBlocks.ValueStep | demos/ray_lcs.py:38-43 | Comparing X[left-1] with Y[up-1], with Python's wrap-around at zero, is the recurrence on the rotated strings. |
| LcsBlocks.Look | demos/ray_lcs.py:21-29 | Every read of the accessor hits a filled cell in range, or the border, and finds the whole table's value. |
| LcsBlocks.FillCell | demos/ray_lcs.py:36-43 | The loop body leaves the final value in its cell and in no other; the zero of row and column zero is overwritten. |
| LcsBlocks.Task | demos/ray_lcs.py:7-45 | A task fills its block with the values of the one-table recurrence, given its three finished neighbours. |
| LcsBlocks.Submissions | demos/ray_lcs.py:67-73 | The driver's submission order contains every block and never a block before its neighbours. |
| LcsBlocks.RunTasks | demos/ray_lcs.py:64-73 | In every order that respects the dependencies the driver's table ends up with exactly the finished blocks, each equal to its part of the one table. |
| LcsBlocks.Driver | demos/ray_lcs.py:48-78 | The driver answers if and only if both strings are not empty and the block size is positive and divides both lengths. The answer is the longest common subsequence of the rotated strings, whatever the block size and the schedule. |
| WordCount.CounterCounts | labs/lab2/mapper.py:173-175 | The counter of a file lists every word once, with its number of occurrences. |
| WordCount.CounterInOrder | labs/lab2/mapper.py:173-175 | The counter lists exactly the words of the file, each once, in the order in which they occur first. |
| WordCount.ItemsTally | labs/lab2/mapper.py:75-79 | The messages for reducer 0 and the first n files count exactly the words of these files that begin with a character below 'm', those for reducer 1 the others. |
| WordCount.SumsAdd | labs/lab2/reducer.py:127 | Adding a message to the dictionary keeps it the sum of the messages seen. |
| WordCount.MergeIsSequential | labs/lab2/checker.py:3-14 | Two dictionaries that count the two routes of the same words merge into the sequential count, with disjoint keys: words that begin below 'm' in the first, the others in the second. |
| WordCount.SequentialIsMultiplicity | labs/lab2/seq.py:12-22 | The sequential count maps each word that occurs, and no other, to its number of occurrences. |
| DataflowChannels.MapperSends | labs/lab2/mapper.py:175-182 | Sending a file, completely or cut short by a broken connection, keeps the channel's invariant. |
| DataflowChannels.MapperSaves | labs/lab2/mapper.py:60-66 | Saving the cursor and forwarding the marker keeps it: the marker separates what the checkpoint covers from the rest. |
| DataflowChannels.ReducerTakes | labs/lab2/reducer.py:125-131 | Taking a count, of this or of another epoch, keeps it. |
| DataflowChannels.ReducerSaves | labs/lab2/README.md:202-207 | Saving when all channels are blocked keeps it: the saved counts match the mapper's saved cursor. |
| DataflowChannels.ReducerRestores | labs/lab2/README.md:236-269 | Restoring a checkpoint in a new epoch keeps it. |
| DataflowChannels.MapperRestarts | labs/lab2/coordinator.py:171-182 | A new mapper process with recovery id 0, connected before any rollback, keeps it. |
| DataflowChannels.ReducerRestarts | labs/lab2/coordinator.py:171-182 | A new reducer process with recovery id 0 on new connections, before any rollback, keeps it. |
| DataflowWorkers.LinkHears | labs/lab2/README.md:279-319 | What the coordinator believes about a worker after reading a report, also a late one of an earlier epoch, is true. |
| DataflowBase.NextKeepsBase | labs/lab2/coordinator.py:171-186 | Every step of every run, whatever restarted mappers do and recoveries reset, keeps what rollback relies on: last checkpoint ids stay next to the round's, files of completed checkpoints exist, recovery commands name them, and the coordinator has drawn every conclusion it can. |
| DataflowSteps.NextKeepsInv | labs/lab2/README.md:236-319 | Every step of mappers, reducers, channels, coordinator, crashes, restarts and rollbacks keeps the invariant of the whole system, except a checkpoint taken in the first epoch by a mapper that was restarted there. |
| DataflowSteps.RollbackStartsInv | labs/lab2/README.md:236-269 | A rollback establishes the whole invariant anew, whatever else was wrong before, if completed checkpoints are consistent and nothing is under way about other checkpoints than the round's and the final one. |
| DataflowLate.NextKeepsSound | labs/lab2/README.md:307-319 | If restarted mappers take no checkpoint of a round in the first epoch, every step keeps either the invariant or, after a final checkpoint of a restarted mapper, what makes completed checkpoints consistent and a rollback repair the rest. |
| DataflowTheorems.CompletedIsConsistent | compute-flink.md:26-47 | Every completed checkpoint is a consistent cut: the reducers' files count exactly the words of the files before the mappers' saved cursors and merge into their sequential count; restarted mappers may do anything but take the checkpoint of a round in the first epoch. |
| DataflowTheorems.ExactlyOnce | labs/lab2/checker.py:3-14 | When the coordinator exits, the final files merge into the sequential count of all words of all files, whatever crashed, was restarted at once or late, and rolled back; restarted mappers may do anything but take a checkpoint in the first epoch. |
| DataflowLimits.GuaranteedExactly | labs/lab2/coordinator.py:171-186 | For every set of files that contains a word, every set of kinds of steps that restarted mappers may take in the first epoch, and both choices of the reset: all runs complete only consistent checkpoints if and only if the checkpoint of a round is not among the kinds and recoveries reset the last checkpoint; all runs end with the sequential count if and only if, moreover, the final checkpoint is not among them. |
| DataflowLimits.HastyCheckpoint | labs/lab2/coordinator.py:182-186 | A failing run for every file with a word: a mapper restarted in the first epoch takes the checkpoint of the round and does nothing else before the rollback, and the completed checkpoint 1 is no consistent cut. |
| DataflowLimits.HastyExit | labs/lab2/mapper.py:34 | The same run continued: the system rolls back to that checkpoint, the mapper reads its stream again, and the coordinator exits with its words counted twice. |
| DataflowLimits.LateExit | labs/lab2/mapper.py:34 | A failing run for every file with a word: a reducer and all mappers die after the ends of all streams were reported, the restarted mappers take the final checkpoint and do nothing else, and the coordinator exits with the reducer's words lost. |
| DataflowLimits.StaleCheckpoint | labs/lab2/coordinator.py:37-39 | A failing run for every file with a word if the reset leaves the last checkpoint alone: an acknowledgement of the old epoch completes checkpoint 1 with a stale reducer file. |
| DataflowLimits.StaleExit | labs/lab2/coordinator.py:37-39 | Rolling back to that checkpoint, the coordinator exits with words lost. |
| DataflowLive.NextKeepsLive | labs/lab2/README.md:202-207 | While nothing crashes nothing gets lost: what a worker is asked for stays in its queue until done, what it has done the coordinator knows or will read, and every marker is on its way until its reducer has saved, the final one last. |
| DataflowFinish.Unstuck | labs/lab2/README.md:202-207 | No deadlock of the barriers: with the mappers' commands handled and something on its way to a reducer, it can take a packet, or all its channels are blocked by the same marker. |
| DataflowFinish.CanAlwaysFinish | labs/lab2/README.md:236-319 | From every reachable state, whatever has crashed, waits or was lost: without any further crash, some continuation ends with the coordinator exiting and the sequential count in the final files. The protocol never gets stuck. |
| DataflowLimits.SomeRunExits | labs/lab2/README.md:307-319 | For every set of files and every n, some run counts everything, loses all workers and rolls back n times, and exits. |
| DataflowRuns.FeedAll | labs/lab2/mapper.py:157-182 | From a resting state, sending and counting all remaining files adds to each reducer's dictionary exactly the words between the cursors and the ends that are routed to it. |
| DataflowRuns.RecoverAll | labs/lab2/README.md:236-269 | A rollback followed by the recovery of all workers leads to a resting state in the next epoch with the cursors and dictionaries of the chosen checkpoint. |
| DataflowTheorems.RollbackTarget | labs/lab2/coordinator.py:70-79 | In every run, with or without the reset and whatever restarted mappers do, the rollback id is -1 or names a completed checkpoint, and is the last completed one up to a million. |
| DataflowTheorems.RecoveryFindsItsFile | labs/lab2/README.md:255-269 | In every run, every recovery command that a worker will handle names the beginning or a checkpoint file that the worker has. |
| DataflowTheorems.CompletedIsNeverRewritten | labs/lab2/README.md:255-269 | No step changes a worker's file of a completed checkpoint (under the condition for consistency). |
| DataflowTheorems.NothingLostOrDoubled | labs/lab2/reducer.py:125-131 | While all workers run outside of recovery and none was restarted since the last rollback, counted plus in-flight words are exactly the words of the files before the cursors (under the condition for consistency). |
| DataflowTheorems.OnlyOwnCounts | labs/lab2/reducer.py:125-131 | In any state, also with recovery commands waiting and packets of several epochs mixed: unless the reducer recovers or is restarted, a step changes its dictionary by exactly the count handed over under its own recovery id, and by nothing else. |
| DataflowTheorems.BetweenRecoveries | labs/lab2/reducer.py:69-71 | Over any run: from a recovery of a reducer to its next one its dictionary is the restored one plus exactly the counts handed over in between under the recovery id of that recovery. |
| DataflowProcesses.ReducerState.Checkpoint | labs/lab2/reducer.py:61-66 | Writes the dictionary under the id and remembers the id. |
| DataflowProcesses.ReducerState.Recover | labs/lab2/reducer.py:69-71 | Sets the recovery id and restores the dictionary (the restoring is specified, not coded). |
| DataflowProcesses.ReducerState.HandleCount | labs/lab2/reducer.py:125-131 | A count of another recovery id changes nothing; otherwise the dictionary becomes that of the system's reducer. |
| DataflowProcesses.CheckpointThenRecover | labs/lab2/reducer.py:61-71 | Checkpoint, stray counts, recovery, stray counts: the dictionary is the checkpointed one. |
| DataflowProcesses.MapperState.Checkpoint | labs/lab2/mapper.py:60-66 | Writes the cursor under the id and remembers the id. |
| DataflowProcesses.MapperState.Recover | labs/lab2/mapper.py:69-71 | Sets the recovery id; the cursor is restored and the connections are made again (these two are specified, not coded). |
| DataflowProcesses.MapperState.HandleCheckpoint | labs/lab2/README.md:202-207 | Ignores a command of another epoch; otherwise saves the cursor, sends the marker to the reducers before the first broken connection, and acknowledges exactly if none is broken (specified, not coded). |
| DataflowProcesses.MapperState.HandleRecover | labs/lab2/README.md:236-269 | Recovers and acknowledges (specified, not coded). |
| DataflowProcesses.MapperState.WordCount | labs/lab2/mapper.py:157-182 | Sends the counts before the first one that raises, which are those of non-empty words with an intact connection: to reducer 0 if the word begins with a character below 'm', otherwise to reducer 1. The cursor moves exactly when none raises. |
| DataflowProcesses.WordCountIsSend | labs/lab2/mapper.py:175-182 | Writing the counts up to the first that raises, with the connections as they are, is a send step of the system: the complete one if all connections are intact. |
| DataflowProcesses.DyingIsCrash | labs/lab2/mapper.py:175-179 | A mapper may die after any of the counts that it can send: that is a crash step of the system, and these counts stay sent. |
| DataflowProcesses.WordCountIsStep | labs/lab2/mapper.py:157-182 | A process that represents a mapper of the system still represents it after one round in place, in the state made of its new cursor and of what it wrote and reported, and that state is reached by a send or finish step. |
| DataflowProcesses.CheckpointIsStep | labs/lab2/mapper.py:60-66 | Handling a checkpoint command in place, with whatever connections, is the system's checkpoint step: the markers and the acknowledgement of the step are what the process wrote and told, and it represents the new state. |
| DataflowProcesses.RecoverIsStep | labs/lab2/mapper.py:69-71 | Handling a recovery command in place is the system's recovery step, with the acknowledgement that the process told. |
| DataflowProcesses.RetryAfterEmptyWord | labs/lab2/mapper.py:76-79 | A file with an empty word is never passed, and the counts before that word are sent again under the same recovery id. |
| DataflowProcesses.CoordinatorState.LastCompletedCheckpointId | labs/lab2/coordinator.py:70-79 | The loop computes the system's rollback id. With workers whose ids are all below a million it is -1 if some worker has no checkpoint, and otherwise some worker's last id and at most every one. |
| DataflowProcesses.CoordinatorState.DoneUpdate | labs/lab2/coordinator.py:127-141 | Marks the mapper as done and leaves the phase exactly when all mappers are; as coded it goes to the exit phase. |
| Framing.NumberRoundTrip | labs/lab3/core/message.py:32 | Decoding an encoded length gives it back. |
| Framing.BytesRoundTrip | labs/lab3/core/socket_helpers.py:41 | Encoding a decoded length gives the same bytes back. |
| Framing.BigEndianDigits | labs/lab3/core/message.py:32 | The most significant byte of a length comes first: each byte is its digit to the base 256. |
| Framing.OneMessage | labs/lab3/core/message.py:24-32 | A message is its length in eight bytes and its body; a length of 2 to the 64 or more is an error. |
| Framing.Socket.Recv | labs/lab3/core/socket_helpers.py:26-29 | Some bytes of what is to come, none only at the end of the stream. |
| Framing.Socket.RecvAll | labs/lab3/core/socket_helpers.py:19-31 | Exactly n bytes however the stream is cut, or None with the stream drained. |
| Framing.Socket.RecvMessage | labs/lab3/core/socket_helpers.py:34-48 | One message and the rest of the stream, or a failure for a stream that ends early or a body of length zero. |
| Framing.Socket.HandleClient | labs/lab3/core/server.py:42-62 | The handler loop answers an invalid message and reads on: what it processes is the decoding of the stream, or the part of it up to where replies fail. |
| Framing.DecodedExactly | labs/lab3/core/message.py:24-32 | The messages processed are a given list if and only if the stream is the frames of these messages, with any empty frames in between, followed by something cut off: frames are uniquely decodable. |
| Framing.SendAndReceive | labs/lab3/core/message.py:24-32 | Whatever the fragmentation, the non-empty messages arrive as sent. |
| Framing.Socket.RecvFrames | labs/lab2/reducer.py:200-206 | Reading 1024 bytes at a time cuts the stream. |
| Framing.OneFrame | labs/lab2/message.py:35-60 | A frame is the length in four bytes, the body, and zero bytes up to 1024; a longer message is not cut. The first 1024 bytes hold the body exactly when it has at most 1020 bytes, otherwise its first 1020 bytes. A length of 2 to the 32 or more is an error. |
| Framing.CutRoundTrip | labs/lab2/message.py:35-60 | Cutting recovers the messages if and only if each has at most 1020 bytes. |
| Evaluation.Grade | labs/lab2/evaluation/lab2_eval.py:140-163 | The loop ends, starts with the test "none", runs each test at most once and after one that opens it, runs exactly the tests reached by a path of scoring tests, and runs them breadth first. |
| Evaluation.BreadthFirstPlaces | labs/lab2/evaluation/lab2_eval.py:160-163 | Breadth first by positions: of two tests the one that runs first is named by an earlier test than any that names the other, or earlier in the list of the same test. |
| MapReduce.ApplyMap | demos/ray_mr.py:19-27 | Each list holds exactly the words of its bucket, in order, with count one: list i those whose first letter has a code equal to i modulo the number of lists, and every word is in its list. |
| MapReduce.ApplyReduce | demos/ray_mr.py:41-50 | The dictionary sums up all its input lists. |
| MapReduce.ReduceCounts | demos/ray_mr.py:52-56 | A reduce task's input counts exactly the words of its bucket in all partitions. |
| MapReduce.CountWords | demos/ray_mr.py:6-59 | The merged result is the sequential count of the first num_partitions * chunk documents; the remainder is dropped. |

## Left out

- Sockets, processes, threads, the connection pool, time-outs, heartbeats and logging: abstract channels and steps.
- JSON text, regular expressions, CSV files, Redis and file storage: messages are values, log lines are parsed events
  (`Other` for a line that matches nothing), files are lists of words, checkpoint files are maps.
- CRAQ: the server in the repository is an empty exercise.
- Server failure in chain replication, which the lab excludes (labs/lab3/README.md:14).
- Races inside one Bayou server between taking the timestamp and updating the storage: a client write is one step.
  Clocks are assumed positive and increasing at each server, as storage-ec.md:139-142 does.
- Loss of Bayou messages is an answer that is never delivered; an answer may also be delivered several times, which is
  more than the code does.
- ChainExact.AgreementExact: for logs that also contain GETs only the sufficient direction is proved
  (ChainTheorems.AgreementAtQuiescence), because the value a GET returned can rule out the order in which replicas would
  disagree.
- ChainServer.CRServer.ProcessReq: states what one undisturbed request does in place; interleaved threads are the subject
  of ChainReplication, on values.
- The reducer's command queue and its handler threads in the word count: a packet is counted when it leaves its channel,
  and alignment saves and unblocks in one step (the marker command is queued before any channel resumes).
- Empty words: files contain none. With one, the code raises and sends part of the file again, see
  DataflowProcesses.RetryAfterEmptyWord.
- DataflowTheorems.ExactlyOnce: does not say that the coordinator exits in every fair run; that it always still can is
  DataflowFinish.CanAlwaysFinish.
- A restarted mapper's connections share the channels of the old ones, so that what is left of an old connection is
  always taken before what is sent on the new one.
- A connection that breaks without the death of its reducer, and a first write on a broken connection that TCP accepts:
  a send step allows any part of a file to be lost on a broken connection, but breaks only connections to dead reducers.
- DataflowTheorems.RollbackTarget: past a million checkpoints the code's first guess wins and the rollback goes further
  back than necessary, still to a completed checkpoint.
- Decoding and lower-casing of documents in map-reduce, and the final sorting for display.
- The evaluation script's subprocesses and score table: a score is a function of the test.
- Lab 1, the parameter server, the TensorFlow demo, generators, plotting, and cluster start and stop.
