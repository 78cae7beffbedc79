# A verified model of a small Kubernetes

This project models the parts of a from-scratch Kubernetes clone whose correctness is hard to see by
reading: the Raft core that replicates its API server, the shell that makes Raft durable, the
versioned object store and its watch stream, the kube-proxy rule compiler, the ReplicaSet controller,
the controllers' work queue and the node's address allocator. Apart from the inputs that show where
a promise fails, the claims below are theorems about all inputs or all runs. `dafny verify dfyconfig.toml` checks everything.

## How it is built

**Raft.** `RaftCore` is one function per handler of `src/raft/core.rs`; `RaftNodes.RaftNode` is the
same node as an object with mutable fields and the original loops, each method proved equal to its
function. `RaftStorages` is the disk, the effect interpreter and recovery. `RaftCluster` puts any
number of nodes on a network that never forgets a packet (so packets may be lost, repeated and
reordered), and lets a node crash after any number of the effects of a step and restart from disk.
Safety is proved through `RaftBallots`, a small protocol of seven actions with one inductive invariant
(a later leader, a later log holder and a later vote all carry whatever could still be chosen);
`RaftSim` shows that every handler performs only these actions, `RaftDurability` that every prefix of
its effects does too, and `RaftSafety` states the promises of sections 5.2 to 5.4.3 of the Raft paper
(extended version) for every run. `RaftRepair` proves that log repair ends. `RaftRules` says what each
handler does in terms of the fields of node and message alone, and `RaftProgress` proves availability:
from every reachable state any majority can elect a leader and commit and apply a new command.

**Object store.** `ObjectStore` has the transactions as functions and as methods of `Database`.
`StoreHistory` is about arbitrary interleavings of commands. `Watch` is the list-then-watch stream
interleaved with any number of writers, with the two halves of a list as separate steps; `WatchCache` is
what a client makes of its events, `WatchPromises` what it can rely on and `WatchFailures` a run for each
way in which it ends up wrong. `Replicas` is about stores fed by the Raft apply streams, `Restarts` about
a log replayed into a store that already holds its outcome.

**kube-proxy.** `KubeProxy` is the compiler, `KubeNat` interprets its commands on any prior nat table,
`KubeTraffic` gives a table its meaning (the probability of each verdict for each packet) and proves
that the compiled table means what the Services and Endpoints say, `KubeBalance` is the arithmetic of
the spread.

**Controllers and node.** `ReplicaSets` runs one reconcile pass against the store, `Adoption` many
concurrent adopters, `WorkQueues` the deduplicating queue, `Ipam` the allocator.

Where the code and its own comments differ the model follows the code:

- The follower caps its commit index at its own last index (`src/raft/core.rs:313`), not at the last
  new entry as Figure 2 of the Raft paper does. `CommitCapIsSafe` proves this harmless here,
  `CapNeedsWholeSuffix` shows that it would not be if leaders shipped less than their whole suffix.
- `src/apiserver/watch.rs:46-51` says that no write slips between list and watch. The list scans
  first and reads the counter afterwards, so writes can slip between those two: `GapLosesWrite` is a run
  in which one does. `TwoStepListMisses` and `WatchAgreesIff` say exactly which are missed, and which of
  those are healed by a later write; `WatchAgrees` is the good case.
- The same comment does not mention three other ways to end up wrong. Writers that emit after committing
  may overtake each other (`OvertakingLeavesDeleted`, exactly when: `ManyWritersAgreeIff`); a client that
  resumes is not told of deletes while it was away (`ResumeMissesDelete`, part of `WatchAgreesIff`); an
  object that stops matching the filter is not reported (`FilterKeepsStale`, `FilteredAgreesIff`).
- `src/apiserver/applier.rs:1-5` promises identical stores on every replica. A replica that restarts applies
  its log again to stores that persisted: `RestartRevivesDeleted` is an input on which it then differs,
  `RestartedReplicaAgreesIff` the exact condition.
- `src/controller/workqueue.rs:21-23` describes `dirty` as queued or in flight; a key leaves `dirty`
  when it is handed out and returns only if it is added again.
- The version counter saturates (`src/apiserver/storage.rs:322-331`). An echo of its last value proves
  nothing, an echo of any other version proves everything: `NoLostUpdate` and `LostUpdateIff` are the
  exact conditions, `SaturationStealsPods` what it means for adoption, `SaturatedStreamIsFrozen` for a
  watch.
- A ReplicaSet pass that draws a random pod name that is taken logs it and goes on
  (`src/controller/replicaset.rs:73-76`). `Reconcile` says how many pods it then reaches and that it is
  settled exactly if all draws were different and free.
- The five printed decimals of a probability (`src/kube_proxy.rs:183`) reach zero past 200000
  backends: `ReachableIff` is the exact condition.

## Model

| member | source | states |
|---|---|---|
| RaftLogs.RaftLog.FromEntries | src/raft/log.rs:32-34 | a log built from recovered entries holds exactly those entries |
| RaftLogs.RaftLog.Append | src/raft/log.rs:69-77 | appends one entry with the next 1-based index and returns that index |
| RaftLogs.RaftLog.Truncate | src/raft/log.rs:79-85 | drops everything from the given index on, the whole log for index 0 |
| RaftLogs.RaftLog.AppendEntries | src/raft/log.rs:87-89 | extends the log by the given entries in order |
| RaftNodes.RaftNode.constructor | src/raft/core.rs:64-78 | a new node is a follower of term 0 with an empty log and no vote |
| RaftNodes.RaftNode.SetElectionTimeout | src/raft/core.rs:80-82 | changes the timeout and nothing else |
| RaftNodes.RaftNode.HandleStep | src/raft/core.rs:90-103 | the node and the ordered effects after any event are those of the value-level step that the safety theorems are about |
| RaftNodes.RaftNode.HandleTick | src/raft/core.rs:105-122 | heartbeat of a leader, election of anyone else at the timeout |
| RaftNodes.RaftNode.Elect | src/raft/core.rs:126-148 | candidacy with the persist effect before every vote request, and an immediate win alone |
| RaftNodes.RaftNode.AskAll | src/raft/core.rs:143-145 | one vote request per peer in peer order |
| RaftNodes.RaftNode.MaybeStepDown | src/raft/core.rs:152-162 | a newer term makes a follower of it with no vote and one persist; the leader hint stays |
| RaftNodes.RaftNode.HandleRequestVote | src/raft/core.rs:164-189 | grants once per term and only to an up-to-date log, persisting before the reply |
| RaftNodes.RaftNode.HandleRequestVoteResp | src/raft/core.rs:191-203 | counts granted votes of the current term |
| RaftNodes.RaftNode.Win | src/raft/core.rs:208-224 | a majority of the full cluster makes a leader that announces itself |
| RaftNodes.RaftNode.MakeAppend | src/raft/core.rs:229-250 | one peer's message carries the whole suffix from its next index |
| RaftNodes.RaftNode.Broadcast | src/raft/core.rs:252-254 | one append per peer in peer order |
| RaftNodes.RaftNode.HandleAppendEntries | src/raft/core.rs:256-327 | stale term, failed consistency check and acceptance, each with the exact reply |
| RaftNodes.RaftNode.AcceptAppend | src/raft/core.rs:290-326 | stores, learns the commit index, applies, then acknowledges |
| RaftNodes.RaftNode.Store | src/raft/core.rs:292-308 | the conflict loop: skip what matches, cut at a conflict, append the rest, with its persist effects |
| RaftNodes.RaftNode.HandlePropose | src/raft/core.rs:329-343 | leader only: durable before it is broadcast, committed at once in a cluster of one |
| RaftNodes.RaftNode.Advance | src/raft/core.rs:347-356 | applies everything committed and not yet applied, in order |
| RaftNodes.RaftNode.HandleAppendEntriesResp | src/raft/core.rs:358-394 | acknowledgements only raise the match index, rejections walk back by one with floor 1 |
| RaftNodes.RaftNode.Commit | src/raft/core.rs:399-429 | the highest own-term index held by a majority becomes the commit index |
| RaftNodes.RaftNode.CountHolders | src/raft/core.rs:410-414 | number of peers whose match index reaches the given index |
| RaftStorages.RaftStorage.LoadHardState | src/raft/storage.rs:29-34 | the stored term and vote, or the default if none was ever stored |
| RaftStorages.RaftStorage.SaveHardState | src/raft/storage.rs:36-44 | replaces term and vote and leaves the log alone |
| RaftStorages.RaftStorage.AppendEntries | src/raft/storage.rs:52-60 | every entry is stored under its own index |
| RaftStorages.RaftStorage.TruncateFrom | src/raft/storage.rs:66-79 | every key at or past the cut is gone, every other one is as before |
| RaftStorages.RaftStorage.LoadLog | src/raft/storage.rs:81-88 | the stored values in ascending key order |
| RaftStorages.LoadReturnsStored | src/raft/storage.rs:81-88 | loading gives back exactly the log that the tree represents |
| RaftStorages.RecoverForgets | src/raft/node.rs:63-68 | a recovered node has the stored term and vote, or none if nothing was stored, and is a follower that has committed nothing |
| RaftStorages.RaftShell.constructor | src/raft/node.rs:63-68 | the recovered node has the term, vote and log of the disk and volatile state from scratch |
| RaftStorages.RaftShell.Execute | src/raft/node.rs:120-153 | effects run strictly in order on disk, network and applier |
| RaftStorages.RaftShell.Turn | src/raft/node.rs:88-117 | one event: step the core, draw a new timeout if the step made a candidate, execute all its effects, publish the leader and wake its watchers if and only if it changed |
| RaftStorages.RearmIsInvisible | src/raft/node.rs:99-106 | the new timeout changes nothing the effects do |
| RaftBallots.UpToDateCarries | src/raft/core.rs:168-173 | a log that passes the up-to-date check against a voter holds everything the voter could have helped to choose |
| RaftBallots.WinnerHolds | src/raft/core.rs:208-224 | quorum overlap: a winner holds every entry that could still be chosen in an earlier term |
| RaftBallots.FreshNotChoosable | src/raft/core.rs:335-342 | once a later term has been won, an entry that nobody past its own term acknowledged can never be chosen |
| RaftBallots.LogMatching | src/raft/core.rs:278-308 | two vouched logs with equal terms at an index are equal through it |
| RaftBallots.LeaderCompleteness | src/raft/core.rs:399-429 | what is committed in a term is in the log of every later leader |
| RaftBallots.WonWithCommitted | src/raft/core.rs:208-224 | and was in the log that leader won with, even if it won before the commit |
| RaftBallots.CommittedAgree | src/raft/core.rs:399-429 | two committed prefixes agree on the shorter one |
| RaftBallots.AdoptKeepsShared | src/raft/core.rs:293-308 | cutting at a conflict and appending keeps every committed entry |
| RaftSim.MajorityIsMajority | src/raft/core.rs:86-88 | the rounded count is more than half of the full cluster |
| RaftSim.ScanRepairs | src/raft/core.rs:292-308 | on a well-formed message the conflict loop cuts at most once, at the first departure, and appends the rest |
| RaftSim.CommitTargetIs | src/raft/core.rs:400-421 | the downward search finds the highest own-term index with a majority, or keeps the commit index |
| RaftSim.CommitsIsCommitted | src/raft/core.rs:405-418 | what the search finds really is acknowledged by a majority |
| RaftSim.RepairKeepsCommitted | src/raft/core.rs:293-303 | a follower never cuts at or below its commit index |
| RaftSim.LearnCommitOk | src/raft/core.rs:312-315 | the cap at the last index never bites and commits only the sender's committed prefix |
| RaftSim.TermCheckFirst | src/raft/core.rs:150-162 | every message handler is the term check followed by the handler at the new term |
| RaftSim.StepSim | src/raft/core.rs:90-103 | every event in every allowed state is a sequence of ballot actions that keeps the invariant |
| RaftDurability.StepHasShape | src/raft/core.rs:135-147 | the effects of any step are all its persists followed by everything else |
| RaftDurability.RepairOnDisk | src/raft/storage.rs:52-79 | cut and append on the tree give the repaired log, and between them the shared prefix |
| RaftDurability.FinalSynced | src/raft/node.rs:120-153 | after all effects of a step disk term, vote and log equal memory |
| RaftDurability.CrashSim | src/raft/node.rs:120-153 | after any prefix of the effects the disk is a state the protocol allows |
| RaftDurability.RecoverOk | src/raft/node.rs:63-68 | a node rebuilt from such a disk is a legal node |
| RaftDurability.PromiseBacked | src/raft/core.rs:175-187 | each message of any prefix of the effects is backed by the disk at that point |
| RaftDurability.AckHeld | src/raft/core.rs:290-326 | what a success reply acknowledges is in the log and equals the message's entries |
| RaftDurability.StepGap | src/raft/core.rs:347-356 | the applies of a step are exactly the entries after last_applied up to the new commit index |
| RaftCluster.TurnIsClusterStep | src/raft/node.rs:88-107 | what a turn does to node, disk and channels is what the cluster does on handling the event and re-arming |
| RaftCluster.TurnInCluster | src/raft/node.rs:88-107 | a shell that is a node of a cluster still is after a turn |
| RaftCluster.RestartInCluster | src/raft/node.rs:47-85 | a shell built from a node's disk is that node after a restart |
| RaftCluster.FreeToFail | src/raft/node.rs:88-118 | any node may crash after any number of effects of any event, restart at any time, and get any packet ever sent again |
| RaftCluster.NextRelated | src/raft/node.rs:88-118 | every action of the cluster, crash and restart included, keeps the relation to the ballots |
| RaftCluster.RunRelated | src/raft/node.rs:88-118 | every reachable cluster state is related to ballots that satisfy the invariant |
| RaftCluster.NetGains | src/raft/node.rs:120-153 | the network gains exactly the messages of the effects that ran, all of them for a completed step |
| RaftDurability.ExecSends | src/raft/node.rs:120-153 | executing effects sends exactly their messages and applies exactly their entries, in their order |
| RaftRules.VoteRule | src/raft/core.rs:164-189 | a vote is granted if and only if the term is newer, or the same with the vote free or the candidate's, and the candidate's last entry is of a higher term or of the same term and no earlier |
| RaftRules.TimeoutRule | src/raft/core.rs:105-148 | a node that does not lead campaigns on exactly the tick that reaches its timeout: next term, own vote, persisted first, every peer asked |
| RaftRules.WinRule | src/raft/core.rs:191-224 | a granted vote of its term makes a candidate leader if and only if more than half of the cluster voted for it, with every peer probed from its own end |
| RaftRules.LoneWinRule | src/raft/core.rs:126-148 | the timeout itself makes a leader exactly in a cluster of one |
| RaftRules.HeartbeatRule | src/raft/core.rs:105-122 | a leader sends every peer an append on every third tick and nothing in between |
| RaftRules.CommitRule | src/raft/core.rs:399-429 | the commit index never falls, rises only to an own-term entry that more than half of the cluster holds, and leaves no later such entry uncommitted |
| RaftRules.AckRule | src/raft/core.rs:358-394 | an acknowledgement raises what is known of that peer and only that, a rejection goes one back with floor 1 and is answered with an append from there, an older reply changes nothing |
| RaftRules.AckCommits | src/raft/core.rs:358-429 | an acknowledgement commits everything it completes a majority for |
| RaftRules.ProposeRule | src/raft/core.rs:329-343 | a leader appends, persists first, sends every peer its missing suffix and commits what it can; anyone else refuses |
| RaftRules.AppendRule | src/raft/core.rs:256-327 | an append is accepted if and only if it is of no older term and the entry before it is held; what is acknowledged, committed and reset |
| RaftProgress.AnyMajorityCanElect | src/raft/core.rs:105-224 | from every reachable state ticks and deliveries within any majority can lead to one of them leading all of them in one term |
| RaftProgress.Exchange | src/raft/core.rs:229-394 | probes and replies bring a follower's log in line with the leader's, which then commits what a majority holds |
| RaftProgress.AnyMajorityCanCommit | src/raft/core.rs:90-429 | from every reachable state, whatever was lost or crashed, ticks and deliveries within any majority can lead to a new command being committed and applied by every member of it |
| RaftSafety.ElectionSafety | src/raft/core.rs:126-224 | over any run, crashes included, at most one node is ever leader of a term |
| RaftSafety.OneSenderPerTerm | src/raft/core.rs:208-254 | at most one node ever sends appends of a term, so a leader that crashed inside its winning step is covered |
| RaftSafety.SenderLeads | src/raft/core.rs:208-254 | whoever sent an append of a term is the leader of that term in every state that has one |
| RaftSafety.LogsMatch | src/raft/core.rs:229-308 | logs of any nodes at any moments with equal terms at an index are equal through it |
| RaftSafety.LogMatchesMessage | src/raft/core.rs:229-308 | the same between a log at one moment and an AppendEntries at another |
| RaftSafety.LeadersAreComplete | src/raft/core.rs:399-429 | whatever a node has committed by a term is in the log of every leader of a higher term, seen before or after the commit, and of every leader of that term seen after it |
| RaftSafety.CutCommitsAreComplete | src/raft/core.rs:399-429 | the same for a commit inside a step that a crash cuts off once its persists are done |
| RaftSafety.LeadersKeepLives | src/raft/core.rs:347-356 | and for everything applied by a life that a crash ends, its last cut step included |
| RaftSafety.StateMachineSafety | src/raft/core.rs:347-356 | two entries applied at one index by any nodes at any moments are the same |
| RaftSafety.StreamsArePrefixes | src/raft/core.rs:347-356 | all apply streams are prefixes of one another |
| RaftSafety.StreamIsGapless | src/raft/core.rs:347-356 | a living node has applied 1, 2, 3 and so on, and last_applied, commit_index and last_index stay ordered |
| RaftSafety.LifeIsGapless | src/raft/core.rs:347-356 | so has a node whose last step was cut off by a crash after any number of effects |
| RaftSafety.LifeIsPrefix | src/raft/core.rs:347-356 | and what it applied is a prefix of, or extends, every stream seen so far |
| RaftSafety.CommittedNeverTruncated | src/raft/core.rs:293-315 | no step of a live node lowers its commit index or changes an entry below it |
| RaftSafety.CommitWithinMessage | src/raft/core.rs:229-250 | every AppendEntries ever sent vouches for at least its own leader_commit |
| RaftSafety.CommitCapIsSafe | src/raft/core.rs:310-315 | capping at the own last index commits exactly what the message says and ships |
| RaftSafety.CapNeedsWholeSuffix | src/raft/core.rs:310-315 | a concrete follower that would commit a stale entry if a message shipped less than the suffix |
| RaftSafety.RecoveryIsExact | src/raft/node.rs:63-68 | at every moment of a run the disk gives back exactly the node's term, vote and log |
| RaftSafety.PersistBeforePromise | src/raft/node.rs:120-153 | in every reachable state, for every event and every prefix of its effects, each sent vote, ack and replicated entry is on disk |
| RaftRepair.RejectedRound | src/raft/core.rs:380-392 | a rejection strictly lowers next_index with floor 1 and changes no log |
| RaftRepair.AcceptedRound | src/raft/core.rs:374-379 | after an accepted probe the follower's log starts with the leader's and the leader knows |
| RaftRepair.RepairTerminates | src/raft/core.rs:358-394 | a lossless exchange succeeds within next_index rounds |
| RaftRepair.RepairableInRun | src/raft/core.rs:208-224 | the premises of repair hold for every leader and every other member of its term in every reachable state |
| KubeProxy.FindBackends | src/kube_proxy.rs:152-155 | the addresses of the first Endpoints object with the service's name |
| KubeProxy.BackendsAreFirst | src/kube_proxy.rs:152-156 | only the first Endpoints object with the name counts, with none there are no backends |
| KubeProxy.PushBackends | src/kube_proxy.rs:165-202 | the inner loop: five commands per backend, declining probability for all but the last |
| KubeProxy.PlanRules | src/kube_proxy.rs:141-219 | the compiler: flush, then every live service in listing order |
| KubeProxy.ChainNames | src/kube_proxy.rs:225-239 | the chain names as iptables shows them, within its limit of 28 characters |
| KubeProxy.NamesApart | src/kube_proxy.rs:227-232 | service chains, backend chains and the base chains never share a name |
| KubeProxy.SepKeyInjective | src/kube_proxy.rs:230-232 | the text hashed for a backend determines service, address and port when names hold no slash |
| KubeProxy.HashSuffices | src/kube_proxy.rs:227-239 | no collision among the hashed strings makes all chain names collision free |
| KubeNat.FailsIff | src/kube_proxy.rs:322-338 | a command fails exactly if its chain is missing, unless it creates it, or the target of its jump is |
| KubeNat.ApplyRules | src/kube_proxy.rs:326-338 | commands run in order, an existing chain is tolerated on create, the first other failure stops |
| KubeNat.BackendsRun | src/kube_proxy.rs:165-202 | a service's backend commands succeed and leave its chain with the whole spread |
| KubeNat.BackendsLeave | src/kube_proxy.rs:167-181 | every backend chain ends with mark and rewrite, also if an address is listed twice |
| KubeNat.OthersStay | src/kube_proxy.rs:146-216 | programming one service touches no chain of another |
| KubeNat.UnownedStays | src/kube_proxy.rs:141-219 | a chain that is not the proxy's keeps its rules |
| KubeNat.PlanSucceeds | src/kube_proxy.rs:141-219 | from any table with the base chains no command fails and the result is exactly the programmed services |
| KubeTraffic.MasqOdds | src/kube_proxy.rs:255-266 | the helper chain marks every packet and always returns |
| KubeTraffic.SepOdds | src/kube_proxy.rs:170-181 | a backend chain marks a TCP packet and rewrites it with certainty |
| KubeTraffic.SpreadOdds | src/kube_proxy.rs:165-202 | a service chain gives each backend its first-match share and never returns |
| KubeTraffic.OwnerIsFirst | src/kube_proxy.rs:204-216 | the owner of an address is the first listed live service with it |
| KubeTraffic.DispatchOdds | src/kube_proxy.rs:204-216 | the dispatch rules send a packet to the owner of its address and let others through |
| KubeTraffic.PlanPreservesMeaning | src/kube_proxy.rs:141-219 | for every prior table, packet and verdict the applied plan gives exactly the odds the services ask for |
| KubeTraffic.ReachableBackends | src/kube_proxy.rs:141-219 | a TCP packet can be rewritten to exactly the backends of the owner, always marked, and to nothing if there is none |
| KubeTraffic.SetupMarks | src/kube_proxy.rs:244-274 | the base setup, run once or again, leaves a helper chain that marks and touches no other chain |
| KubeTraffic.OwnerAnswers | src/kube_proxy.rs:146-159 | the owner of an address is the first listed service with that address and port whose first Endpoints object of the name lists someone, and nobody if there is none |
| KubeTraffic.ReachesListed | src/kube_proxy.rs:141-219 | on the applied table a TCP packet can be rewritten to exactly the addresses that object lists, always marked |
| KubeTraffic.PassesThrough | src/kube_proxy.rs:146-159 | a packet that is not TCP or that no such service answers goes through as it came, with certainty |
| KubeBalance.ExactPick | src/kube_proxy.rs:182-201 | with exact probabilities each listing of a backend is picked with chance 1/n |
| KubeBalance.PickIsShare | src/kube_proxy.rs:182-201 | first-match picking of a backend is the product of the misses before it and its own draw |
| KubeBalance.ReachBound | src/kube_proxy.rs:182-201 | the chance to reach backend i is off by at most i printing errors |
| KubeBalance.ShareBound | src/kube_proxy.rs:182-201 | the share of backend i is off from 1/n by at most i+1 printing errors |
| KubeBalance.PrintedRange | src/kube_proxy.rs:183-183 | a printed value is a probability, positive below 200000 and zero above |
| KubeBalance.ReachableIff | src/kube_proxy.rs:183-183 | all different backends can be picked if and only if there are fewer than 200000, or 200000 and that value rounds up |
| KubeBalance.ExactBalance | src/kube_proxy.rs:165-201 | on the applied table each listing of a backend gets 1/n of the traffic |
| KubeBalance.PrintedBalance | src/kube_proxy.rs:165-201 | on the applied table, with five decimals, backend i gets 1/n up to (i+1)/200000 |
| ObjectStore.TreeKeysApart | src/apiserver/storage.rs:117-135 | keys of all kinds are distinct, never the counter's, and a prefix scan finds one kind only |
| ObjectStore.Database.ScanKind | src/apiserver/storage.rs:128-136 | every object of the kind once, in the order of the tree's keys |
| ObjectStore.Database.CurrentVersion | src/apiserver/storage.rs:82-84 | the counter as it is now |
| ObjectStore.Database.List | src/apiserver/storage.rs:128-139 | the scan and then the counter |
| ObjectStore.Database.BumpVersion | src/apiserver/storage.rs:326-331 | the next version, saturating |
| ObjectStore.Database.CheckVersion | src/apiserver/storage.rs:305-321 | passes exactly on an echo of the current version, a missing version conflicts |
| ObjectStore.Database.Emit | src/apiserver/storage.rs:344-350 | one event is appended to what was sent |
| ObjectStore.Database.CreatePrestamped | src/apiserver/storage.rs:152-183 | existing names are refused; otherwise stored with a fresh version and announced after the write |
| ObjectStore.Database.ReplaceSpecOf | src/apiserver/storage.rs:185-215 | missing, conflict, or replaced with uid, creation time and status kept and generation raised |
| ObjectStore.Database.ReplaceStatusOf | src/apiserver/storage.rs:220-246 | missing, conflict, or only status and version changed |
| ObjectStore.Database.Remove | src/apiserver/storage.rs:248-267 | missing, conflict, or removed with an event that carries a fresh version |
| ObjectStore.Database.ApplyCommand | src/apiserver/applier.rs:34-81 | dispatch by kind; an unknown kind or an undecodable payload changes nothing |
| StoreHistory.ApplyShape | src/apiserver/applier.rs:34-97 | any command changes nothing or writes one key whose version is the bumped counter |
| StoreHistory.GatePasses | src/apiserver/storage.rs:305-321 | a conditional command succeeds if and only if it echoes the stored version |
| StoreHistory.CommandVerdict | src/apiserver/applier.rs:34-97 | the verdict on any command: internal, already exists, not found, conflict with both versions, or success announced as added, modified or deleted, each with its exact condition |
| StoreHistory.KindTexts | src/apiserver/applier.rs:34-58 | the five texts that name a kind, and no other |
| StoreHistory.CounterSaturates | src/apiserver/storage.rs:326-331 | the counter goes up by one and stays at 2^64 - 1 |
| StoreHistory.RunConsistent | src/apiserver/storage.rs:326-331 | over any run stored versions lie between one and the counter, and only the last value of the counter can be shared |
| StoreHistory.VersionsDistinct | src/apiserver/storage.rs:326-331 | below saturation stored versions are pairwise distinct across all kinds |
| StoreHistory.WritesHaveOwnVersions | src/apiserver/storage.rs:322-331 | writes of a run carry strictly increasing versions across all kinds until the last value is reached |
| StoreHistory.VersionIsWitness | src/apiserver/storage.rs:152-267 | a key still has a version read earlier if and only if nothing wrote it since, also through delete and re-create; the last version only tells whether the key is there |
| StoreHistory.NoLostUpdate | src/apiserver/storage.rs:185-267 | a conditional command passes if and only if its key was not written since the read, for every version but the last; that one passes if and only if the key is there |
| StoreHistory.LostUpdateIff | src/apiserver/storage.rs:185-331 | an echo passes although its key was written if and only if it is the last version and the key is there |
| StoreHistory.SaturationLosesUpdates | src/apiserver/storage.rs:322-331 | an input: at saturation the second of two conditional writers overwrites the first |
| StoreHistory.CreateStoresSubmitted | src/apiserver/storage.rs:152-183 | a create stores the submitted object unchanged but for its version |
| StoreHistory.ReplaceKeeps | src/apiserver/storage.rs:185-267 | identity and creation time survive, spec and status change only through their own writes and to what was submitted, a delete reports what was there |
| StoreHistory.IdentitySticks | src/apiserver/storage.rs:196-205 | over any run an object keeps its uid and creation time until it is deleted |
| WatchCache.ReplayEntry | src/apiserver/watch.rs:78-86 | of all events about a name the last one decides what a client holds, and names that no event mentions stay |
| WatchCache.CatchUpEntry | src/apiserver/watch.rs:66-76 | the catch-up from a resume point is right about every object it finds that matches and says nothing about any other name |
| WatchCache.CommitView | src/apiserver/storage.rs:178-181 | an event does to a cache what its command did to the store, other kinds see nothing |
| Watch.ViewIsReplay | src/apiserver/storage.rs:178-181 | over any stretch of a run the view is the earlier view with the events written since replayed |
| Watch.WrittenIsNew | src/apiserver/storage.rs:152-267 | what a stretch of a run wrote has versions from within the stretch, what it did not write is as before |
| Watch.StretchKeeps | src/apiserver/storage.rs:152-267 | a stretch leaves a name as it was if and only if it did not write it, or the name is absent at both ends |
| Watch.RunBalanced | src/apiserver/storage.rs:178-181 | with any number of writers every event written since a moment was sent once or is still pending, and nothing else that new was sent |
| Watch.RunAligned | src/apiserver/storage.rs:178-181 | and in the order of writing if events are emitted in that order |
| Watch.OneWriterInOrder | src/apiserver/raft_glue.rs:196-224 | a single writer, as in the apply loop, emits in that order |
| Watch.EmitStory | src/apiserver/watch.rs:88-94 | emitting extends what the stream will tell by the event if the query wants it; events are lost only by a stream that is then bound to fail |
| Watch.StepTells | src/apiserver/watch.rs:64-98 | every step keeps the invariant: the stream tells what its query wants of the scan and then of what was emitted since the counter read |
| Watch.RunTells | src/apiserver/watch.rs:64-98 | the invariant holds from the counter read on in every run |
| Watch.LiveHasListed | src/apiserver/watch.rs:64-66 | every stream that is live has scanned and then read the counter |
| Watch.FreeToInterleave | src/apiserver/watch.rs:64-98 | nobody waits for anybody: commits, emits and the steps of the stream interleave freely |
| Watch.LagStep | src/apiserver/watch.rs:86-94 | a stream lags exactly when an event is sent to it while 256 are waiting, and ends exactly when it then receives |
| Watch.KeepsUp | src/apiserver/watch.rs:86-94 | a stream that keeps up is never ended |
| WatchPromises.NothingTwice | src/apiserver/watch.rs:78-86 | what was yielded, even by a stream that fails, is a prefix of the wanted scan and the wanted events emitted since, each of which was written since and is sent once |
| WatchPromises.NothingOld | src/apiserver/watch.rs:68-86 | only the kind and the objects asked for are delivered, and no version up to the resume point |
| WatchPromises.YieldedVersions | src/apiserver/watch.rs:78-86 | below saturation no version is delivered twice |
| WatchPromises.TwoStepListMisses | src/apiserver/storage.rs:128-139 | at the counter read the client has been told the truth if and only if nothing it held vanished while it was away and no name written in the gap matches at the scan or at the counter read |
| WatchPromises.ClientRightAt | src/apiserver/watch.rs:52-99 | a client that has replayed everything is right about a name exactly when: unwritten since the counter read and not missed; or written, all held back by the filter, and not held; or the last event delivered leaves what the last one written leaves |
| WatchPromises.WatchIsRightIff | src/apiserver/watch.rs:52-99 | for any writers, resume point and filter the replayed stream equals the matching objects if and only if the client is right about every name |
| WatchPromises.FilteredAgreesIff | src/apiserver/watch.rs:68-85 | with events emitted in order a filtered client is right if and only if no object it holds was left by a write that no longer matches and no unwritten name was missed |
| WatchPromises.WatchAgreesIff | src/apiserver/watch.rs:52-99 | without a filter, with events emitted in order and any resume point, the replayed stream equals the store if and only if every name the catch-up missed was written again |
| WatchPromises.WatchAgrees | src/apiserver/watch.rs:52-99 | in particular whenever no command in the gap wrote the kind and nothing the client held vanished |
| WatchPromises.ManyWritersAgreeIff | src/apiserver/storage.rs:178-181 | with any number of writers the replayed stream equals the store if and only if for every name written since the counter read the last event emitted leaves what the last one committed leaves, and no other name was missed |
| WatchPromises.SwappedEmitsDiverge | src/apiserver/storage.rs:178-181 | for two writers in a row whose emits swap: right if and only if their targets differ, deletes included, or both left the very same object, which takes a saturated counter |
| WatchPromises.SaturatedStreamIsFrozen | src/apiserver/watch.rs:78-86 | if the counter was used up when it was read, a client keeps what the catch-up left for ever |
| WatchPromises.NothingResumes | src/apiserver/watch.rs:68-76 | a client that holds nothing may start from 0 |
| WatchPromises.ResumePoint | src/apiserver/watch.rs:68-76 | a client that was right at some moment may resume from any version between the highest it holds and the counter then |
| WatchFailures.GapLosesWrite | src/apiserver/storage.rs:128-139 | a run in which a create between scan and counter read is never delivered |
| WatchFailures.OvertakingLeavesDeleted | src/apiserver/storage.rs:178-181 | a run with two writers after which the client holds a deleted object |
| WatchFailures.ResumeMissesDelete | src/apiserver/watch.rs:68-76 | a run in which a delete while the client was away is never delivered |
| WatchFailures.FilterKeepsStale | src/apiserver/watch.rs:82-85 | a run after which a filtered client holds an object that no longer matches |
| Replicas.ApplyLoop | src/apiserver/raft_glue.rs:196-224 | committed entries are applied in order, undecodable ones are skipped |
| Replicas.SharedPrefix | src/apiserver/raft_glue.rs:196-224 | any two replicas of a run saw the same first entries |
| Replicas.ReplicasAgree | src/apiserver/raft_glue.rs:196-224 | of two replicas one store is reached from the other by further entries, with equal verdicts on all shared ones |
| Replicas.WriteBackOnStream | src/apiserver/applier.rs:34-97 | on one stream a conditional write succeeds if and only if its key was not written since the read |
| Replicas.StaleReadIsSafe | src/apiserver/applier.rs:34-97 | a conditional write from a read of any stale replica succeeds everywhere if and only if its key was not written in between; the last version only tells whether the key is there |
| Restarts.ReplayIsHarmlessIff | src/apiserver/applier.rs:34-97 | commands replayed into a store leave it alone if and only if it refuses each of them as it is |
| Restarts.RestartIsHarmlessIff | src/apiserver/raft_glue.rs:196-224 | and that is if and only if everything they create is there and none echoes the version its key has |
| Restarts.EchoIsUsedUp | src/apiserver/storage.rs:305-321 | a conditional command that echoes a version read is refused by the store its own log led to |
| Restarts.HonestRestartIff | src/apiserver/raft_glue.rs:196-224 | with clients that echo only what they read, a log replayed into the store it led to is harmless if and only if everything it ever created is still there |
| Restarts.RestartRevivesDeleted | src/apiserver/raft_glue.rs:196-224 | an input: an object created and deleted comes back |
| Replicas.RestartedReplicaAgreesIff | src/apiserver/raft_glue.rs:196-224 | in any run a restarted replica agrees with the others again if and only if everything created in the entries it replays is still there and none of them echoes a current version, which clients that echo only what they read never do |
| WorkQueues.WorkQueue.constructor | src/controller/workqueue.rs:34-39 | an empty queue |
| WorkQueues.WorkQueue.Enqueue | src/controller/workqueue.rs:41-55 | a dirty key is not queued again, a checked-out key is only marked |
| WorkQueues.WorkQueue.TryDequeue | src/controller/workqueue.rs:57-63 | hands out the oldest ready key, or none |
| WorkQueues.WorkQueue.Finish | src/controller/workqueue.rs:74-82 | a key added while checked out becomes ready again |
| WorkQueues.StepKeepsValid | src/controller/workqueue.rs:41-82 | ready is dirty without processing, no duplicates, and no key is handed out while checked out |
| WorkQueues.FinishNeedsCheckout | src/controller/workqueue.rs:74-82 | finishing keeps the invariant if and only if the key is checked out or not dirty |
| WorkQueues.RunValid | src/controller/workqueue.rs:41-82 | the invariant holds over every run |
| WorkQueues.NeverTwiceAtOnce | src/controller/workqueue.rs:57-82 | a key stays with its worker until it is finished |
| WorkQueues.HandedInOrder | src/controller/workqueue.rs:57-63 | the key at position p is handed out by the (p+1)-th later try_get |
| WorkQueues.FieldsTellHistory | src/controller/workqueue.rs:41-82 | over every run a key is checked out if and only if it was handed out and not finished since, needs processing if and only if it was added and not handed out since, and is ready if and only if it needs processing and is not checked out |
| WorkQueues.EmptyHandedIff | src/controller/workqueue.rs:57-63 | try_get comes back empty-handed if and only if every key that needs processing is checked out |
| WorkQueues.EveryAddWasServed | src/controller/workqueue.rs:41-82 | if every key handed out was finished and try_get would be empty-handed, every add was followed by a checkout of its key |
| WorkQueues.ServedAgain | src/controller/manager.rs:105-131 | a key that was finished and is added again is handed out again |
| Ipam.IpAllocator.constructor | src/ipam.rs:54-59 | the cursor starts at the first usable host and nothing is in use |
| Ipam.IpAllocator.Allocate | src/ipam.rs:67-87 | the smallest released host, else the first unused from the cursor on, else a failure |
| Ipam.IpAllocator.Reserve | src/ipam.rs:92-97 | claims any usable host of the slice and refuses every other address |
| Ipam.IpAllocator.Release | src/ipam.rs:101-107 | only a host in use is released, anything else is ignored |
| Ipam.IpAllocator.HostInRange | src/ipam.rs:114-129 | the host of an address of this slice that is not reserved |
| Ipam.AllocateRefines | src/ipam.rs:67-87 | a host handed out was not in use, and is the least unused one when nothing was released |
| Ipam.FailsOnlyWhenFull | src/ipam.rs:67-87 | allocation fails if and only if every usable host is in use |
| Ipam.Capacity | src/ipam.rs:10-16 | a slice has 253 hosts and no pool has more in use |
| Ipam.ReserveRefines | src/ipam.rs:92-97 | reserving adds the host to those in use and keeps the invariant |
| Ipam.ReleaseRefines | src/ipam.rs:101-107 | releasing removes the host from those in use and keeps the invariant |
| Ipam.RunValid | src/ipam.rs:67-107 | in-use and released hosts stay disjoint and usable and cover everything below the cursor |
| Ipam.NeverHandedTwice | src/ipam.rs:67-107 | a host handed out or reserved is handed out again only after a release |
| Ipam.NeverReserved | src/ipam.rs:10-16 | hosts 0, 1 and 255 are never handed out |
| Ipam.CountsUp | src/ipam.rs:67-87 | a fresh pool that only allocates hands out 2, 3, 4 and so on up to 254 and then fails |
| Ipam.ReservedClaims | src/ipam.rs:92-97 | reserving claims the host and no other, and ignores 0, 1 and 255 |
| ReplicaSets.Adopt | src/controller/replicaset.rs:151-155 | one owner is added, generation and version advance, and nothing else of the pod changes |
| ReplicaSets.CreatePod | src/controller/replicaset.rs:71-77 | a taken name is refused and changes nothing, a free one gets the stamped pod |
| ReplicaSets.Gather | src/controller/replicaset.rs:48-66 | every adoptable pod is adopted, no other changes, and the result lists the controlled pods exactly |
| ReplicaSets.ScaleUp | src/controller/replicaset.rs:69-78 | a pod is added for exactly the drawn names that were free, each with the template's labels and spec and this controller |
| ReplicaSets.DrawsCount | src/controller/replicaset.rs:169-172 | as many pods are added as are drawn if and only if all draws are different and free |
| ReplicaSets.SortByAge | src/controller/replicaset.rs:81-85 | the same pods, counted with multiplicity, ordered by the text of the creation time, none first |
| ReplicaSets.SortIsStable | src/controller/replicaset.rs:80-85 | pods of one creation time keep their order |
| Texts.TextLeIs | src/controller/replicaset.rs:80-85 | texts compare by their first difference, and a text comes before its extensions |
| ReplicaSets.DeleteFirst | src/controller/replicaset.rs:87-95 | exactly the first k listed pods go |
| ReplicaSets.Scale | src/controller/replicaset.rs:48-96 | the number of controlled pods is `replicas` less the names that were taken, nothing is left to adopt, the oldest go first, and of every pod, by its owners and labels alone, whether it is adopted, left as it was, gone or from the template |
| ReplicaSets.CountPods | src/controller/replicaset.rs:119-124 | counts the controlled pods, or the ready ones among them |
| ReplicaSets.CountedPlainly | src/controller/replicaset.rs:119-142 | whose pod a pod is and when it is ready, said of its owners and status alone |
| ReplicaSets.StatusPlainly | src/controller/replicaset.rs:119-128 | the three figures of a status |
| ReplicaSets.AdoptsPlainly | src/controller/replicaset.rs:144-149 | a pod is adoptable if and only if no owner controls it and its labels include the selector |
| ReplicaSets.UpdateStatus | src/controller/replicaset.rs:117-135 | the status becomes the true figures and nothing is written when it already is |
| ReplicaSets.CascadeDelete | src/controller/replicaset.rs:99-111 | exactly the pods of the vanished ReplicaSet go, and nothing is written if there are none |
| ReplicaSets.Reconcile | src/controller/replicaset.rs:39-97 | one pass settles the ReplicaSet if and only if no drawn name was taken, and a pass with nothing to do writes nothing |
| ReplicaSets.ReconcileTwice | src/controller/replicaset.rs:39-97 | after a pass that found free names, or over a vanished ReplicaSet, a second pass writes nothing whatever it draws |
| Adoption.ReadIsCurrent | src/apiserver/storage.rs:185-195 | a replacement that passes the check was made from the object still stored |
| Adoption.ControllerSticks | src/controller/replicaset.rs:144-155 | an adoption is never overwritten: a pod with a controller keeps its owners until it is deleted, as long as no echo is the last version |
| Adoption.SaturationStealsPods | src/apiserver/storage.rs:322-331 | with the last version echoed, the second of any two adopters takes the pod from the first and both were told they succeeded |
| Adoption.NeverTwoControllers | src/controller/replicaset.rs:144-155 | under any interleaving of adopters and other clients no pod ever has two controllers |

## Left out

- WatchPromises.WatchIsRightIff: a scan sees the store at one moment, while sled walks its tree entry by entry.
- WatchPromises.SwappedEmitsDiverge: two writers in a row; any number in any order is ManyWritersAgreeIff.
- ReplicaSets.Reconcile: calls reach the API server and no one else writes during the pass; concurrent writers are the subject of Adoption.
- Versions are numbers instead of decimal texts, and terms, indexes, generations and ticks are unbounded; only the store's version counter has its 64-bit saturation.
- Storage calls succeed and are atomic one effect at a time; fsync failure, sled internals and the zero-padded text of log keys are not modelled.
- JSON, HTTP, routes, handlers, clients, CLI, manifests and binaries; payloads are decoded values and decoding of a log entry is a parameter.
- Replicas.ReplicasAgree: stores that began empty; what a restart does to it is RestartedReplicaAgreesIff, for a store whose versions are not used up.
- The resolution of a proposer's waiting request (src/apiserver/raft_glue.rs:219-222) and the redirect to the leader.
- Timing: election timeouts and their random seed, that the schedules AnyMajorityCanCommit shows to exist do occur, resync periods, the delayed add and the backoff of the work queue, the notification that wakes a parked worker.
- leader_hint as a property: it is carried as the code carries it, and RaftRules says when it is set, but nothing is claimed of who it names.
- iptables itself beyond create, flush, append and first-match traversal: malformed addresses, the kernel's own loop check, the hooks into PREROUTING and OUTPUT, and the POSTROUTING masquerade that the mark triggers.
- The floating-point division behind a printed probability; any printer within the stated error is covered.
- Parsing of a CIDR (src/ipam.rs:36-60).
- Membership change and snapshots, which the repository does not implement.
- The scheduler, the Endpoints controller, the kubelet's reconciler, the runtime and the CIDR and ClusterIP pickers: single-function facts or foreign calls.
