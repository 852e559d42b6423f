# Verification of the simulator's modules

The repository teaches distributed systems with small deterministic simulations: each module is a reducer
`(state, event) -> (state', effects)`, and an engine runs the reducers over a virtual network and clock and
lets the user scrub back and forth. This project models the modules with the most to go wrong, and the engine,
in Dafny, and proves what the lessons promise about them. `dafny verify dfyconfig.toml` checks it.

Each part has the same three layers. The handlers are written once as functions on the node's state; where
the program works in place, a class or a method with loops does the same and its contract ties it to the function
on the object's view. Over the functions stands a cluster or a history: any enabled action, in any order. Over that
stand the theorems, for every run.

- **Raft** (`Raft*.dfy`). Five nodes, all messages ever sent. A step delivers any sent message, fires any timer, or
  takes any client operation, so loss, repetition, reordering, partitions and kills are all included. `RaftReducer`
  is the reducer, `RaftReplica` the object. A ghost history (`RaftHistory`) keeps, for each term, who led it, who voted,
  the log it started with and its log since, and which acknowledgements were given. `RaftLocal` and `RaftReplication`
  show that every handler extends the history consistently, `RaftCluster` that every step does, `RaftLedger` follows one
  committed log for the whole cluster, `RaftSafety` states the results, and `RaftSettling` what clients are told and when. The
  argument is that of Ongaro and Ousterhout, "In Search of an Understandable Consensus Algorithm", sections 5.2 to 5.4.3.
  One point is this program's own: a follower commits up to `min(leaderCommit, log length)`, which is safe only because an append always
  ships the leader's whole suffix; that fact is part of the message invariant.
- **The linearizability search** (`Linearizable.dfy`). The memoised search as a class with its shared seen set and best
  mask, proved exact against the existence of a legal order.
- **LSM engine** (`StorageShared.dfy`, `Lsm*.dfy`). WAL, memtable, runs, bloom filters, compaction and the four faults,
  against a plain map. The reading of torn runs is characterised exactly: recovery is exact if and only if the state it
  starts from is covered, and compacting a torn run is what breaks that, also in histories whose every timer was due.
- **B-tree** (`Btree*.dfy`). Pages by id, splits up a recorded path, redo-log rebuild. A ghost shape assigns each page its
  bounds, level and parent. Map refinement, balance and the exact cost of every history.
- **Transactions** (`Txn*.dfy`). Version chains and all four levels; the queue of the serial level. Serial equivalence, the
  meaning of the serial run on a plain map, no dirty reads above read-uncommitted, and exactly which schedules lose an
  update or show write skew at the snapshot level. The lab sends only its presets, step by step (`src/ui/labs/txn/TxnLab.tsx:50`), and
  they begin each transaction first, so they lose none; another schedule takes a program that drives the simulation.
- **Quorum replication** (`Leaderless*.dfy`) and **single-leader replication** (`Replication*.dfy`). Freshness
  over asynchronous runs, the second with the exact latency it takes; and that nothing is stored or answered but what was
  written.
- **MapReduce** (`Batch*.dfy`). Scheduler and workers, killed, reset and revived at will; the output is exact,
  and so is what a death undoes.
- **Engine** (`Engine*.dfy`). The in-place binary heap, the simulation and the recorder; scrubbing equals replay, and
  partitions and kills keep from a node exactly what they should.

How things are represented:

- Identifiers made of strings are structured: a Raft operation id is a node and a number, B-tree page `p3` is 3, anomaly and
  abort texts are datatypes. Storage keys are real numbers, because only their order and equality matter and any
  countable total order embeds in the reals; other keys are strings.
- Numbers of the program are mathematical integers; nothing in these modules relies on rounding or overflow. Latencies and
  drop draws are reals.
- The hash behind the bloom filters is any function of the key; the random generator is any function of its state, with values
  in [0, 1). The draw for an election timeout is left out because timers may fire at any time.
- Bit masks of the linearizability search are sets of indices, so the population count is a cardinality.
- The splits and the partition of MapReduce are parameters, so its results hold for any input; so is the order rows are
  displayed in.
- A message in flight is in a set of all packets ever sent, and delivery leaves it there.

## Model

| member | source | states |
|---|---|---|
| `RaftSafety.ElectionSafety` | src/modules/raft.ts:126-185 | No term ever has two leaders: nodes leading the same term, at whatever two moments of a run, are one node |
| `RaftSafety.LogMatching` | src/modules/raft.ts:86-211 | Logs that share a term at an index, at any two moments and nodes, are equal up to that index |
| `RaftSafety.LeaderCompleteness` | src/modules/raft.ts:165-229 | Everything a node counts as committed is in the log of every leader of a later term, and of its own term from then on |
| `RaftSafety.StateMachineSafety` | src/modules/raft.ts:161-231 | At any two moments any two nodes hold the same entry (term, value, tag) at every slot both have committed |
| `RaftSafety.AppliedRegister` | src/modules/raft.ts:105-124 | In every reachable state lastApplied equals commitIndex, commitIndex is within the log, and the register is the value of the last committed entry |
| `RaftSafety.CommitsStay` | src/modules/raft.ts:186-229 | commitIndex never shrinks and no slot below it ever changes |
| `RaftSafety.AcknowledgedStays` | src/modules/raft.ts:186-211 | What a node acknowledged in a term stays in its log, entry by entry, for as long as it is in that term, whatever delayed or repeated appends arrive and whether or not the term still has a leader |
| `RaftSafety.AcknowledgedIsLeaders` | src/modules/raft.ts:186-230 | And while that leader leads, what it was acknowledged is what its own log holds |
| `RaftSafety.OkWriteStays` | src/modules/raft.ts:105-124 | A write settled ok stays at its index: every node whose commitIndex reaches the index holds that very write there, its identity and its value |
| `RaftSafety.LostWriteNever` | src/modules/raft.ts:105-124 | A write settled lost while commitIndex covers its index is committed in no state, at no node, at no slot |
| `RaftSettling.RowsAnswered` | src/modules/raft.ts:105-124 | Every step answers every row exactly as the log and commit index it leaves decide: a pending write ok iff its entry is there and committed, lost iff it is not there and its slot is committed or gone, else not yet; answers given stay |
| `RaftSettling.PendingInLog` | src/modules/raft.ts:105-124 | In every reachable state a pending write is in a slot of its node's log past commitIndex |
| `RaftSettling.ReadsCommitted` | src/modules/raft.ts:246-254 | A read that a leader answers carries the value of the last entry the leader has committed by then |
| `RaftSettling.OperationsAsked` | src/modules/raft.ts:233-255 | Rows come of client operations alone, one each: others redirect, a leader answers reads and logs writes under the row's identity, at the index the row names |
| `RaftSafety.RealTimeOrder` | src/modules/raft.ts:105-124 | If one write is settled ok before another is invoked, and that one settles ok too, their indices are in that order |
| `RaftSafety.NeverThrows` | src/modules/raft.ts:86-98 | Every event a reachable state admits runs: the array accesses of appendFor and of applying are always in range |
| `RaftCluster.EnabledRuns` | src/modules/raft.ts:86-98 | The step form of the same: under the invariant no enabled action leaves the reducer stuck |
| `RaftHistory.Completeness` | src/modules/raft.ts:165-178 | What a majority of one term acknowledged, every later reign starts with: the vote check and the intersection of majorities, by induction on terms |
| `RaftHistory.UpToDateHolds` | src/modules/raft.ts:168-174 | A log at least as up to date as one holding a committed prefix holds that prefix, provided the leaders in between do |
| `RaftHistory.OneLeader` | src/modules/raft.ts:126-137 | Two reigns' electors of one term share a voter, who voted once |
| `RaftReplication.MergeKeeps` | src/modules/raft.ts:195-205 | Merging an append loses agreement with a log only where the sender's log disagrees with it: no delayed append removes what the term's leader placed |
| `RaftReplication.MessageMerges` | src/modules/raft.ts:192-206 | What a delivered append leaves in the log agrees with its leader's log through the end of the shipped suffix |
| `RaftReplication.CountableCommitted` | src/modules/raft.ts:218-224 | A slot of the current term that the leader counts on a majority is acknowledged by a majority in the history, so committed |
| `RaftReplication.AppendOk` | src/modules/raft.ts:186-211 | An append, fresh or stale, keeps the node's invariant, and what it answers is true of the log it leaves |
| `RaftReplication.AppendRespOk` | src/modules/raft.ts:212-230 | An acknowledgement keeps the leader's invariant, including the rule that only an entry of its own term moves commitIndex |
| `RaftLocal.ElectionOk` | src/modules/raft.ts:139-152 | Standing for election keeps the invariant: a new term, one vote for oneself |
| `RaftLocal.ReqVoteOk` | src/modules/raft.ts:165-178 | Answering a vote request keeps the invariant: one vote a term, and only to an up-to-date candidate |
| `RaftLocal.VoteCountOk` | src/modules/raft.ts:179-185 | Counting a vote keeps the invariant: only distinct current voters count, and a majority of them makes the one reign of the term |
| `RaftReplication.ReduceOk` | src/modules/raft.ts:283-305 | Any event at a node keeps the global history, the node and all it sends within the invariant |
| `RaftLedger.StepLedger` | src/modules/raft.ts:105-124 | One committed log for the whole cluster grows with every step and never changes; settled rows point into it, and rows invoked after its growth point past it |
| `RaftReducer.ReduceKeepsValid` | src/modules/raft.ts:283-305 | The reducer keeps what its own array accesses rely on |
| `RaftReplica.Replica.constructor` | src/modules/raft.ts:265-282 | A new replica is the initial state: follower of term 0 with nothing logged |
| `RaftReplica.Replica.AdoptTerm` | src/modules/raft.ts:78-84 | The object after adopting a term is the specified one: follower, no vote, timer armed anew |
| `RaftReplica.Replica.AppendFor` | src/modules/raft.ts:86-98 | The append for a peer is built from its next index and ships the whole suffix |
| `RaftReplica.Replica.BroadcastAppends` | src/modules/raft.ts:100-102 | The loop over peers sends each its own append |
| `RaftReplica.Replica.ApplyAndSettle` | src/modules/raft.ts:105-124 | The apply loop and the settle loop in place give the specified register and rows: ok, lost or still pending |
| `RaftReplica.Replica.BecomeLeader` | src/modules/raft.ts:126-137 | Winning sets every peer to the end of the log, acknowledges nothing and sends appends and a heartbeat |
| `RaftReplica.Replica.OnTimer` | src/modules/raft.ts:139-159 | Election, heartbeat and client timers change the object as specified; a superseded nonce changes nothing |
| `RaftReplica.Replica.StartElection` | src/modules/raft.ts:141-152 | A candidacy: next term, own vote, requests to every peer |
| `RaftReplica.Replica.OnReqVote` | src/modules/raft.ts:165-178 | The vote is granted exactly under the specified condition, and answered either way |
| `RaftReplica.Replica.OnVote` | src/modules/raft.ts:179-185 | A current granted vote from a new voter is counted, and the majority's makes a leader |
| `RaftReplica.Replica.Merge` | src/modules/raft.ts:196-205 | The loop in place skips what the log already holds and cuts it only at the first conflict |
| `RaftReplica.Replica.OnAppend` | src/modules/raft.ts:186-211 | Refusal, merge, commit and acknowledgement of an append are the specified ones |
| `RaftReplica.Replica.Replicas` | src/modules/raft.ts:218-222 | The counter over the peers is one more than the number of peers known to hold the slot |
| `RaftReplica.Replica.AdvanceCommit` | src/modules/raft.ts:217-226 | The scan ends at the highest slot above commitIndex that carries the current term and sits on a majority |
| `RaftReplica.Replica.OnAppendResp` | src/modules/raft.ts:212-230 | An acknowledgement moves match, next and commitIndex; a refusal steps next back and sends again |
| `RaftReplica.Replica.OnMessage` | src/modules/raft.ts:161-231 | A higher term is adopted before the message is handled |
| `RaftReplica.Replica.OnClient` | src/modules/raft.ts:233-255 | Writes are logged and sent by a leader and redirected by others; reads are answered from the register |
| `RaftReplica.Replica.Reduce` | src/modules/raft.ts:283-305 | The object's handlers refine the reducer that the safety theorems are about, for every event |
| `Linearizable.CheckLinearizable` | src/modules/linearizable.ts:15-61 | The verdict is exact: too-long iff past the cap, ok iff some order of all operations respects real time and register reads; a violation names the smallest operation outside a largest seatable set |
| `Linearizable.CompleteStarts` | src/modules/linearizable.ts:29-46 | For any history, the complete orders the search builds are exactly the linearizations of well-timed histories |
| `Linearizable.ClosedIsComplete` | src/modules/linearizable.ts:32-46 | An explored set closed under seating contains every reachable (mask, register) pair: pruning on seen pairs loses nothing |
| `Linearizable.SearchExhausted` | src/modules/linearizable.ts:29-52 | A search that ends without success proves there is no linearization, and its best mask is a largest seatable set |
| `Linearizable.Search.Dfs` | src/modules/linearizable.ts:29-46 | The recursive search ends; success means a linearization exists, failure that everything below the pair has been explored |
| `Linearizable.Precedences` | src/modules/linearizable.ts:20-27 | The table lists, for each operation, exactly those that responded before it was invoked |
| `Linearizable.Culprit` | src/modules/linearizable.ts:47-52 | The scan finds the smallest operation outside the best mask, so the fallback after it is never reached |
| `StorageShared.UpsertKeeps` | src/modules/lsm.ts:62-67 | Upserting replaces exactly one key's entry and keeps the memtable sorted without duplicates |
| `StorageShared.CollectKeeps` | src/modules/lsm.ts:131-137 | Merging keeps, for each key, its last entry, sorted |
| `Lsm.DurableView` | src/modules/lsm.ts:69-261 | After any interleaving of operations, timers and faults, the last WAL record of a key, else the newest run holding it, is the key's last acknowledged write |
| `Lsm.Invariant` | src/modules/lsm.ts:69-277 | In every reachable state runs are sorted and covered by their bloom filters, levels are in order, the memtable is sorted and agrees with the WAL where it has the key |
| `Lsm.SearchIsView` | src/modules/lsm.ts:174-200 | Skipping runs on their bloom filters never hides an entry, and probes plus skips never exceed the number of runs |
| `Lsm.SearchCosts` | src/modules/lsm.ts:174-200 | A read looks at the runs down to the newest that holds the key, or all; it costs a probe for each that its filter does not rule out, and counts the others as skips |
| `Lsm.CrashReads` | src/modules/lsm.ts:203-226 | Right after a crash every read returns the last acknowledged write |
| `Lsm.MemtableReplays` | src/modules/lsm.ts:203-207 | Without torn writes the memtable always equals the replay of the WAL |
| `Lsm.UntornReads` | src/modules/lsm.ts:174-200 | Without torn writes every read returns the last write |
| `Lsm.RecoverReadsIff` | src/modules/lsm.ts:238-258 | Every read right after a recovery is exact if and only if, when it began, each key was in the memtable, had no WAL record, was about to be repaired by the newest run that is torn or holds it, or already read as its WAL record says |
| `Lsm.CarefulCovered` | src/modules/lsm.ts:150-163 | A run of the engine that never compacts while a run is torn always satisfies that condition |
| `Lsm.RecoverReads` | src/modules/lsm.ts:238-258 | So, with torn writes but no compaction of a torn run, every read right after a recovery is exact |
| `Lsm.TornCompactForgets` | src/modules/lsm.ts:150-163 | Compacting a torn run forgets its flag: the entry it lost stays in the WAL and recovery leaves its key at what older runs hold |
| `Lsm.FullKeepsRuns` | src/modules/lsm.ts:150-163 | With the disk full no compaction rewrites anything: until a recovery every run stays, unless it is torn |
| `LsmTimers.ThreeRounds` | src/modules/lsm.ts:95-171 | Timers fire only when due: five new keys arm a flush, and the third flush arms the compaction |
| `LsmTimers.ForgottenWrite` | src/modules/lsm.ts:150-163 | A history of due timers where that happens: three rounds of five puts and a flush, a tear while the compaction is due, the compaction, a recovery; the last key reads as it was before its last write |
| `Lsm.BuildBloom` | src/modules/lsm.ts:83-87 | The filter has exactly the bits of the entries' keys |
| `Lsm.MergeRuns` | src/modules/lsm.ts:131-137 | The map-filling loop yields the specified merge of the runs, newest winning |
| `Lsm.LsmGet` | src/modules/lsm.ts:174-200 | The loop over runs answers and charges reads as specified: the memtable, then newest run first, skipping on bloom misses |
| `Lsm.RecoverFromWal` | src/modules/lsm.ts:203-207 | The replay loop rebuilds the memtable from the WAL |
| `Lsm.LsmReduce` | src/modules/lsm.ts:263-277 | The reducer with its loops is the specified step |
| `Btree.Invariant` | src/modules/btree.ts:64-221 | In every reachable state the pages form a B-tree for what the log says |
| `Btree.LogIsAsked` | src/modules/btree.ts:101-116 | The log always says exactly what was asked for |
| `Btree.ReadsExact` | src/modules/btree.ts:77-83 | After any puts, deletes, gets and faults a read returns the last write of its key, and costs exactly the height |
| `Btree.Balanced` | src/modules/btree.ts:64-180 | Every descent visits one page a level; index pages have a child more than keys; keys ascend; and no page exceeds the order unless the disk is full |
| `Btree.LeavesLevel` | src/modules/btree.ts:126-180 | Every page hangs under the root, and every leaf exactly height - 1 levels below it |
| `Btree.SeparatorsBound` | src/modules/btree.ts:64-75 | Every key anywhere under a child lies between the separators around that child |
| `Btree.TreeIsReplay` | src/modules/btree.ts:199-214 | While the disk has never been full the tree is the replay of its log |
| `Btree.RebuildIsSame` | src/modules/btree.ts:199-221 | So a crash or a recovery rebuilds exactly the tree that was there: every page, id and level |
| `Btree.WriteAmplification` | src/modules/btree.ts:101-180 | bytesWritten is exactly 16 * (2 * writes + 2 * pages - height - 1), and below four times userBytes once anything was written |
| `Btree.FullSplitsNothing` | src/modules/btree.ts:101-128 | With the disk full no page is made and none split, whatever is written, until a crash or a recovery rebuilds the tree |
| `BtreeGrow.ClimbSound` | src/modules/btree.ts:126-180 | Splitting up a path keeps every tree invariant and the contents, and pays for each page it makes |
| `BtreeGrow.InsertSound` | src/modules/btree.ts:101-116 | One write, with or without a full disk, keeps the tree sound for the table with that key written |
| `BtreeShape.AnswerIs` | src/modules/btree.ts:77-83 | In a well-formed tree the descent finds what the table holds for the key |
| `BtreeSplit.HalvesAreOk` | src/modules/btree.ts:133-160 | Both halves of a split page are well formed on either side of the separator |
| `BtreeSplit.StillHeld` | src/modules/btree.ts:133-160 | After a split every other page is still among the children of its parent |
| `BtreeWrite.WithLeafOk` | src/modules/btree.ts:86-116 | Rewriting a leaf changes the table at one key and nothing of the shape |
| `BtreeEngine.FindLeaf` | src/modules/btree.ts:64-75 | The loop ends at the leaf of the key with the path of the specified descent, one read a page; every reachable tree meets its requirement |
| `BtreeEngine.BtreeGet` | src/modules/btree.ts:77-83 | The read returns and charges what is specified |
| `BtreeEngine.InsertIntoLeaf` | src/modules/btree.ts:86-99 | The scan inserts or replaces at the specified place |
| `BtreeEngine.HalvePage` | src/modules/btree.ts:133-160 | Halving moves the upper half, and an index page's middle key, as specified |
| `BtreeEngine.SplitUp` | src/modules/btree.ts:126-180 | The loop up the path yields the specified tree and the bytes of the pages it wrote |
| `BtreeEngine.WriteThrough` | src/modules/btree.ts:101-116 | The write with its loops is the specified one |
| `BtreeEngine.RebuildFromWal` | src/modules/btree.ts:199-214 | The loop over the log yields the specified rebuild |
| `BtreeEngine.BtreeReduce` | src/modules/btree.ts:182-191 | The reducer with its loops is the specified step, and keeps the invariant |
| `TxnSerial.SerialEquivalence` | src/modules/txn.ts:273-340 | Every complete interleaving of the two transactions leaves a serial node, up to the queuedOps counter, as running the first-begun one entirely and then the other; the queue ends empty |
| `TxnSerial.Finishes` | src/modules/txn.ts:305-340 | The same against a plain serial run with no queue at all, and both transactions end |
| `TxnSerial.DrainIsDirect` | src/modules/txn.ts:305-318 | Draining parked steps of one transaction is running them directly |
| `TxnMeaning.SerialMeaning` | src/modules/txn.ts:273-356 | After any such interleaving every key's committed value is what the two programs leave on a plain map, one after the other, and no anomaly is recorded |
| `TxnMeaning.NoDirtyReads` | src/modules/txn.ts:112-144 | Whatever the schedule, only read-uncommitted ever records a dirty read |
| `TxnMeaning.DirtyReadIff` | src/modules/txn.ts:112-144 | A read is recorded as dirty exactly at read-uncommitted, when the newest version of the key is another's and uncommitted |
| `TxnMeaning.CommittedReads` | src/modules/txn.ts:112-126 | At read-committed and serial levels a read returns the newest version that is committed or the reader's own, and nothing only when there is none |
| `TxnLosses.LostUpdatesExact` | src/modules/txn.ts:202-271 | At the snapshot level a schedule records exactly these lost updates: x commits a write of k, having begun since the other transaction committed k, while the last read of k by x could not see that commit |
| `TxnLosses.NoLossIff` | src/modules/txn.ts:202-271 | So a schedule records none if and only if no commit of it loses one |
| `TxnLosses.NoLostUpdates` | src/modules/txn.ts:202-271 | In particular none is recorded when transactions begin before their other steps, complete or not: first committer wins |
| `TxnLosses.ShowsIs` | src/modules/txn.ts:112-126 | A snapshot shows a commit exactly when the transaction began after it, or has not begun |
| `TxnSnapshot.CommitLoses` | src/modules/txn.ts:202-271 | For any reachable state, a commit records a lost update of exactly the keys on which it was overtaken: written by both, committed by the other no later than the snapshot, and missed by the last read from elsewhere |
| `TxnSnapshot.PickStamp` | src/modules/txn.ts:112-126 | A snapshot read that does not find a version of its own finds the commit of the other transaction if the snapshot shows it, else the seed, else nothing |
| `TxnLosses.LateBeginLoses` | src/modules/txn.ts:248-282 | A schedule that loses an update: it reads before it begins, so its snapshot is newer than the commit that its read missed |
| `TxnSkew.WriteSkewsExact` | src/modules/txn.ts:228-271 | At the snapshot level a schedule records exactly this write skew: x commits after the other has, without beginning anew since, the two wrote different keys, and each had read a key that the other wrote |
| `TxnSkew.CommitSkews` | src/modules/txn.ts:228-271 | For any reachable state, a commit records write skew exactly when the other committed since x began and their reads and writes cross |
| `TxnSkew.DoctorsSkew` | src/modules/txn-shared.ts:79-94 | The lesson's own schedule: both doctors go off call, and the second commit is recorded as write skew |
| `TxnNode.Engine.constructor` | src/modules/txn.ts:89-106 | A node starts with the seeds committed at 0 |
| `TxnNode.Engine.FindVersion` | src/modules/txn.ts:112-126 | The walk from the newest version finds what the level lets the reader see |
| `TxnNode.Engine.ReadKey` | src/modules/txn.ts:128-144 | A read logs the version, its stamp and writer, and a dirty read when it is one |
| `TxnNode.Engine.WriteKey` | src/modules/txn.ts:146-164 | A write appends a version; an increment adds to the last read, reading first if there is none |
| `TxnNode.Engine.DropUncommitted` | src/modules/txn.ts:166-170 | Exactly the transaction's own uncommitted versions go |
| `TxnNode.Engine.EnsureAtLeast` | src/modules/txn.ts:172-182 | The keys are read one by one, and a sum too small aborts |
| `TxnNode.Engine.AbortTxn` | src/modules/txn.ts:184-191 | Abort drops the versions and records the reason |
| `TxnNode.Engine.DetectLostUpdates` | src/modules/txn.ts:202-222 | The loop records a lost update for exactly the written keys whose last foreign read was overtaken |
| `TxnNode.Engine.DetectAnomalies` | src/modules/txn.ts:202-246 | Lost updates and write skew are appended as specified |
| `TxnNode.Engine.CommitTxn` | src/modules/txn.ts:248-271 | Commit aborts on the first conflicting key at the snapshot level, else stamps, counts and detects |
| `TxnNode.Engine.ApplyOp` | src/modules/txn.ts:273-302 | Each operation is the specified one, and the serial engine is released at an end |
| `TxnNode.Engine.Drain` | src/modules/txn.ts:305-318 | The loop over the queue ends, and leaves what the specified drain leaves |
| `TxnNode.Engine.TakeStep` | src/modules/txn.ts:320-340 | Finished transactions skip, inadmissible steps park, others run and drain |
| `TxnNode.Engine.FindCommitted` | src/modules/txn.ts:349-356 | The scan returns the value with the newest commit stamp, the later version among equals |
| `LeaderlessFresh.QuorumFreshness` | src/modules/leaderless.ts:110-243 | With sloppy off and w + r > 3, a read invoked after a write of the key was acked anywhere completes with a version at least as new, whatever was lost, repeated, reordered or overlapped in between |
| `LeaderlessFresh.AckedStays` | src/modules/leaderless.ts:141-194 | An acked write stays, at its version or a later one, on at least w home replicas forever |
| `LeaderlessFresh.NothingLost` | src/modules/leaderless.ts:88-108 | With fewer than w nodes down the lost-write detector has nothing to report, in any reachable state |
| `LeaderlessValues.HeldWasWritten` | src/modules/leaderless.ts:71-243 | In every run, strict or sloppy, every value a node holds for a key, as data, hint, pending write or gathered answer, was written to that key by a client one tick before the version |
| `LeaderlessValues.SentWasWritten` | src/modules/leaderless.ts:110-292 | And so was every value in flight: to be stored, hinted, handed off or repaired, or answering a read; an answer without one carries version -1 |
| `LeaderlessValues.PendingShort` | src/modules/leaderless.ts:170-241 | In every reachable state a pending write has fewer than w acks and a pending read fewer than r replies: an operation ends with the one that completes its quorum |
| `LeaderlessValues.RepairsExact` | src/modules/leaderless.ts:217-241 | A completed read repairs exactly the repliers that answered an older version, with the newest value |
| `LeaderlessQuorum.StepInv` | src/modules/leaderless.ts:110-292 | Every step keeps the ledger of who stored, acked and answered what, sloppy mode off |
| `LeaderlessQuorum.VerGrows` | src/modules/leaderless.ts:71-75 | The version a node holds of a key never falls |
| `LeaderlessFresh.Overlap` | src/modules/leaderless.ts:210-241 | A write's replicas and a read's repliers, when w + r > 3, share a home node |
| `LeaderlessFresh.NewestFresh` | src/modules/leaderless.ts:217-228 | The newest of a set of replies is as fresh as any reply in it |
| `Leaderless.FinishRead` | src/modules/leaderless.ts:210-241 | The loop over the replies picks the newest and repairs exactly the stale replicas, as specified |
| `Leaderless.FindAlive` | src/modules/leaderless.ts:96-102 | The scan tells whether a live node holds the write or a hint for it |
| `Leaderless.DetectLostAckedWrite` | src/modules/leaderless.ts:88-108 | The loops report an acked write held nowhere alive if and only if there is one |
| `ReplicationRuns.PrefixLogs` | src/modules/replication.ts:49-113 | In both modes every log is always a prefix of the leader's, entry i is numbered i + 1, and data holds each key's last number |
| `ReplicationRuns.AckedEverywhere` | src/modules/replication.ts:97-111 | In sync mode a recorded ack implies that every node has applied that entry |
| `ReplicationRuns.WritesAccounted` | src/modules/replication.ts:69-111 | In every reachable state every numbered write is acked or pending and not both, so an ack is recorded when and only when the last awaited follower confirms |
| `ReplicationRuns.NoStaleReads` | src/modules/replication.ts:150-163 | In sync mode, when messages take at least one tick, no read at any node is stale in any reachable state |
| `ReplicationRuns.SameTickStale` | src/modules/replication.ts:137-139 | With no latency a read and then a write of its key, stored and acked in the same tick, count as a stale read |
| `ReplicationRuns.LeastLatencyExact` | src/modules/replication.ts:150-163 | So a leader and a follower in sync mode never have a stale read if and only if the least latency is at least one tick |
| `ReplicationRuns.StepInv` | src/modules/replication.ts:57-127 | Every step keeps buffers, pending writes and acks consistent with the leader's log |
| `Replication.DrainBuffer` | src/modules/replication.ts:80-91 | The loop applies buffered entries up to the first gap, and lists what to confirm |
| `Replication.DetectStaleRead` | src/modules/replication.ts:150-163 | The loops report a stale read if and only if there is one |
| `BatchRuns.ExactOutput` | src/modules/batch.ts:427-485 | Whatever workers are killed, reset or revived and whatever messages are lost or repeated, a finished job's output is one row for every URL hit, with its count over the whole input, and nothing else |
| `BatchRuns.DistinctWorkers` | src/modules/batch.ts:202-216 | Running tasks always sit on pairwise distinct live workers |
| `BatchRuns.OneFindSuffices` | src/modules/batch.ts:245-259 | So the one running task that a death finds is the only one on the dead worker |
| `BatchRuns.StepInv` | src/modules/batch.ts:290-741 | Every step keeps the invariant that ties attempts, disks, files in flight and output rows to the job's input |
| `BatchRuns.ScheduleOk` | src/modules/batch.ts:202-216 | Scheduling keeps the placement and touches only runnable tasks |
| `BatchRuns.DeadOk` | src/modules/batch.ts:245-276 | A death requeues what it must and keeps the placement |
| `BatchDeaths.DeathRequeues` | src/modules/batch.ts:245-276 | Exactly the tasks running on the dead worker, and the finished maps whose output died on its disk while an unfinished reduce still needed it, run again at the next attempt; every other row stays, but for runnable tasks now placed |
| `BatchDeaths.DeathForgets` | src/modules/batch.ts:260-264 | Exactly the finished maps on the dead disk lose their place, so none that is done has its output there |
| `BatchDeaths.DeathFetched` | src/modules/batch.ts:245-258 | An interrupted reduce forgets what it fetched, others keep it, and the worker is no longer live |
| `BatchDeaths.DeathCharges` | src/modules/batch.ts:250-274 | The counters rise by exactly what was lost: the interrupted task with its ticks, and a whole execution for each finished map that runs again |
| `BatchDeaths.PingsBury` | src/modules/batch.ts:335-340 | A ping round declares dead exactly the live workers that have been silent for too long |
| `BatchService.FinishedOnLive` | src/modules/batch.ts:435-456 | In every reachable state the listed output of a finished map is on a live worker |
| `BatchService.PingRoundServes` | src/modules/batch.ts:335-406 | After every ping round each map that a running reduce has not fetched is still to come or has its output on a live worker |
| `BatchService.HopsAre` | src/modules/batch.ts:316-334 | The hop timer is set exactly between the latching of the job and its start, so it fires once |
| `BatchRuns.MapDoneOk` | src/modules/batch.ts:435-456 | A finished map keeps the scheduler's invariant, stale attempts included |
| `BatchRuns.ReduceDoneOk` | src/modules/batch.ts:464-481 | A finished reduce contributes its rows once |
| `BatchShared.ExpectedCounts` | src/modules/batch-shared.ts:65-72 | The expected file of a reducer counts each of its URLs over the whole input, and no other URL |
| `BatchShared.MergeCounts` | src/modules/batch.ts:601-606 | Merging partition files adds their counts |
| `BatchShared.RowOnce` | src/modules/batch.ts:607-608 | A file has a row exactly once when it carries its URL's count, and never otherwise |
| `BatchShared.MapPartitions` | src/modules/batch-shared.ts:65-72 | The loop over a split fills each reducer's file with that reducer's URLs |
| `BatchNodes.Scheduler.ScheduleTasks` | src/modules/batch.ts:202-216 | The loop in place assigns lowest runnable to lowest idle worker until either runs out |
| `BatchNodes.Scheduler.DeclareDeadWorker` | src/modules/batch.ts:245-276 | The loops in place leave the specified state and effects |
| `BatchNodes.Scheduler.PingRound` | src/modules/batch.ts:335-406 | The death checks, re-sent assignments, relocations and requeues of a ping round are the specified ones, in order |
| `BatchNodes.Scheduler.QueueJob` | src/modules/batch.ts:316-320 | The job is latched once and deferred to the hop timer |
| `BatchNodes.Scheduler.StartTheJob` | src/modules/batch.ts:326-334 | The hop timer starts the map phase |
| `BatchNodes.Scheduler.TakeTimer` | src/modules/batch.ts:324-408 | Timers are dispatched as specified |
| `BatchNodes.Scheduler.TakeMessage` | src/modules/batch.ts:410-485 | Messages are dispatched as specified, so the object refines the scheduler of the runs |
| `BatchNodes.Scheduler.TakePong` | src/modules/batch.ts:412-425 | A pong of the current incarnation revives, an older one is answered with a reset |
| `BatchNodes.Scheduler.TakeRecordDone` | src/modules/batch.ts:430-434 | Progress of the current attempt is charged and acknowledges the assignment |
| `BatchNodes.Scheduler.TakeMapDone` | src/modules/batch.ts:435-456 | The map's disk is recorded, the barrier opened or the reducers told |
| `BatchNodes.Scheduler.TakeFetched` | src/modules/batch.ts:457-463 | A fetch of the current attempt is noted once |
| `BatchNodes.Scheduler.TakeReduceDone` | src/modules/batch.ts:464-481 | The rows are appended, and the last reduce ends the job and sorts the output |
| `BatchNodes.WorkerNode.RecordTimer` | src/modules/batch.ts:560-575 | A record is reported, and the chain goes on to the next record, the disk or the output |
| `BatchNodes.WorkerNode.DiskTimer` | src/modules/batch.ts:576-583 | The split's partition files reach the disk and are reported |
| `BatchNodes.WorkerNode.FetchRetryTimer` | src/modules/batch.ts:584-597 | Exactly the missing files with a known source are fetched again |
| `BatchNodes.WorkerNode.ReduceFiles` | src/modules/batch.ts:601-606 | The loops over the fetched files merge them as specified |
| `BatchNodes.WorkerNode.OutputTimer` | src/modules/batch.ts:598-611 | The merged rows are sent and the run ends |
| `BatchNodes.WorkerNode.TakePing` | src/modules/batch.ts:652-661 | A pong is sent and a chain whose timer is overdue armed again |
| `BatchNodes.WorkerNode.TakeReset` | src/modules/batch.ts:678-684 | The disk and the run are emptied at the new incarnation |
| `BatchNodes.WorkerNode.TakeAssignMap` | src/modules/batch.ts:689-701 | A map already on disk is reported again, a running attempt ignored, else started |
| `BatchNodes.WorkerNode.TakeAssignReduce` | src/modules/batch.ts:702-712 | A running attempt is ignored, else started by fetching from the known sources |
| `BatchNodes.WorkerNode.TakeFetchResp` | src/modules/batch.ts:721-731 | A file of the current attempt is kept once, and the last one starts the records |
| `BatchNodes.WorkerNode.TakeRelocated` | src/modules/batch.ts:732-736 | A fetching reducer is pointed at the new disk |
| `BatchNodes.WorkerNode.ServeFetch` | src/modules/batch.ts:713-720 | A file on disk is sent to whoever asks, a missing one met with silence |
| `BatchNodes.WorkerNode.TakeTimer` | src/modules/batch.ts:556-611 | Timers are dispatched as specified |
| `BatchNodes.WorkerNode.TakeMessage` | src/modules/batch.ts:651-741 | Messages are dispatched as specified, so the object refines the worker of the runs |
| `EngineQueue.PushOk` | src/engine/events.ts:28-39 | Sifting up keeps the heap order and adds exactly the event |
| `EngineQueue.PopOk` | src/engine/events.ts:45-65 | Popping keeps the heap order and removes exactly the top, which nothing in the heap precedes |
| `EngineQueue.TopLeast` | src/engine/events.ts:24-26 | The event to be popped has the least time, and of those with that time the least sequence number |
| `EngineQueue.PopDetermined` | src/engine/events.ts:45-75 | With distinct sequence numbers, heaps holding the same events pop the same event and leave the same events: layout, and so toArray and loadFrom, changes no later pop |
| `EngineQueue.EventQueue.Push` | src/engine/events.ts:28-39 | The sift-up loop in place is the specified push |
| `EngineQueue.EventQueue.Pop` | src/engine/events.ts:45-65 | The sift-down loop in place is the specified pop, and returns an event that none precedes |
| `EngineQueue.EventQueue.ToArray` | src/engine/events.ts:68-70 | The events in heap layout |
| `EngineQueue.EventQueue.LoadFrom` | src/engine/events.ts:73-75 | The queue holds what it is given |
| `EngineSim.RestoreOnTheWay` | src/engine/sim.ts:222-253 | A snapshot taken anywhere on a run restores, from anywhere later, exactly the machine it was taken of, without throwing |
| `EngineSim.RestoreExact` | src/engine/sim.ts:236-253 | Restoring succeeds and is exact when the log has only grown since |
| `EngineSim.ClockForward` | src/engine/sim.ts:126-172 | With delays that are never negative the virtual clock never goes backwards |
| `EngineSim.StrictlyFirst` | src/engine/events.ts:24-26 | At every point of a run the next event strictly precedes all others: order ties cannot happen |
| `EngineSim.StepNLogs` | src/engine/sim.ts:126-172 | Every event processed appends one log entry, and the log only grows |
| `EngineSim.BootReady` | src/engine/sim.ts:65-79 | A booted machine satisfies what the previous results ask of a start |
| `EngineSim.PlanLater` | src/engine/network.ts:52-59 | With non-negative latencies no delivery is planned before its send |
| `EngineFaults.ReachIff` | src/engine/network.ts:42-50 | Between disjoint groups two nodes reach each other unless both are listed and no group lists both |
| `EngineFaults.PlanIff` | src/engine/network.ts:52-59 | A message across a partition is not planned and costs no draw; any other is planned no, one or two times as the draws decide |
| `EngineFaults.PlanInRange` | src/engine/network.ts:52-59 | Every planned copy takes a time from the range of latencies |
| `EngineFaults.EffectQueues` | src/engine/sim.ts:194-209 | An effect queues exactly one timer for the node itself, or one event for each planned copy of its message |
| `EngineFaults.NotDelivered` | src/engine/sim.ts:126-150 | An event for a dead node, or a message across a partition, is logged as not delivered with that reason, and nothing else happens |
| `EngineFaults.Delivered` | src/engine/sim.ts:155-172 | Any other event is delivered: the target's state is what its reducer makes of it, and no other state changes |
| `EngineFaults.StepFaults` | src/engine/sim.ts:174-192 | Who is dead and how the network is split changes by commands alone |
| `EngineFaults.KilledStays` | src/engine/sim.ts:174-180 | From the step that kills a node until one that revives it, it stays dead and its state does not change |
| `EngineFaults.KilledHearsNothing` | src/engine/sim.ts:131-147 | Meanwhile no event for it is delivered |
| `EngineFaults.PartitionSeparates` | src/engine/sim.ts:132-147 | From the step that partitions the network until one that heals or partitions it anew, a message is delivered if and only if its target is alive and not in another group |
| `EngineRecorder.Simulation.constructor` | src/engine/sim.ts:65-79 | The booted machine, one init event a node |
| `EngineRecorder.Simulation.Inject` | src/engine/sim.ts:86-88 | An external event is queued at the present time with the next number |
| `EngineRecorder.Simulation.Command` | src/engine/sim.ts:91-93 | A control event is queued at the present time with the next number |
| `EngineRecorder.Simulation.StepOnce` | src/engine/sim.ts:126-172 | One event is processed as specified: delivered, dropped at a dead or unreachable target, or obeyed; nothing happens when idle |
| `EngineRecorder.Simulation.RunSteps` | src/engine/sim.ts:211-213 | The loop makes so many steps, or as many as there are events |
| `EngineRecorder.Simulation.Save` | src/engine/sim.ts:222-234 | The snapshot is of the whole machine but its log |
| `EngineRecorder.Simulation.Restore` | src/engine/sim.ts:236-253 | Throws exactly when the log is too short; otherwise the machine is the restored one |
| `EngineRecorder.TimelineRecorder.StepOnce` | src/engine/recorder.ts:23-30 | One step of the machine; the snapshot list stays one of this run, ascending, with one at every boundary passed |
| `EngineRecorder.TimelineRecorder.RunSteps` | src/engine/recorder.ts:32-34 | So many steps, or as many as there are events |
| `EngineRecorder.TimelineRecorder.ScrubTo` | src/engine/recorder.ts:37-53 | After any mix of steps and scrubs, scrubbing to a position leaves the machine exactly as that many steps from the start would, no lower than the first snapshot; restore never throws |
| `EngineRecorder.TimelineRecorder.InvalidateFuture` | src/engine/recorder.ts:59-61 | Exactly the snapshots past the present are dropped, and the machine is untouched |

## Left out

- Raft reads: served from the register without a quorum round (`src/modules/raft.ts:251`), so no claim that they are linearizable.
- RaftSafety.LostWriteNever: is for rows settled lost because their slot was committed; one lost because its slot vanished from the log may survive on another node and commit later (`src/modules/raft.ts:118`).
- Raft, replication and MapReduce liveness: timers that fire while a node is dead are dropped, and nothing here says that anything eventually happens.
- Linearizability search: the bit encoding of masks and the handing over of Raft histories (`src/modules/raft.ts:327-345`).
- Storage fields that only the display reads: disk capacity, a run's least and greatest key, a page's own copy of its id, and space amplification.
- Btree.WriteAmplification: is for histories without a full disk, as the program stops splitting once the disk is full.
- TxnSerial.SerialEquivalence: is for complete transactions that begin first and end once; the program has exactly two (`src/modules/txn-shared.ts:6`), and with three the queue would block on its head.
- LeaderlessFresh.QuorumFreshness and LeaderlessFresh.AckedStays: sloppy mode off. Sloppy writes and hinted handoff are modelled in the reducer, but a handoff ack clears a hint by key without comparing versions (`src/modules/leaderless.ts:172`), so acked writes are not claimed durable there. Versions, not values, are claimed: two writes may carry equal timestamps.
- ReplicationRuns.LeastLatencyExact: the run that fails without latency has one follower; with none there is no ack, and with more the same tick takes a message each.
- The dataflow half of `src/modules/batch.ts`: whether a reduce is drained is judged by record counts alone (`src/modules/batch.ts:544`), so exactness would need assumptions about restarts.
- `runUntil` (`src/engine/sim.ts:216-220`): runs for as long as a module keeps scheduling at the present time, so it need not end; `peek` serves only it.
- Recorder with injected externals or controls: snapshots do not contain later injections; scrubbing is claimed for the injection-free case.
- `structuredClone` and aliasing of states between snapshots: a snapshot is a value. The network and the random generator are values inside the simulation, not objects of their own.
- `kafkalog.ts`, `rabbitqueue.ts`, `redispubsub.ts`, `rest.ts`, `graphql.ts`, `grpc.ts`, the `models*.ts`, `pingpong.ts`, `multileader.ts`, `lease.ts`, the `load*.ts`, `hashring.ts` and `unbundled*.ts` modules: smaller invariants that would add easier members.
- `src/ui`, the lesson texts, and every `metrics` and `inspect` function: presentation.
- The bit mixing of `src/engine/rng.ts` and `src/engine/hash.ts`: opaque deterministic functions.
