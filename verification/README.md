# oeAware-manager: a verified model

oeAware-manager is a daemon that runs plugin instances and tunes containers with them. This project models its
stateful cores in Dafny and proves what they promise.

- **Cluster affinity** (`Cluster*.dfy`, `Topologies`, `Ceilings`, `Sums`): containers get whole CPU clusters of one
  NUMA node; rounds move CPU limits from idle to busy containers and back. `ClusterSpec` and `ClusterRounds` describe
  each operation as a function of the state, built from four moves (take cores, take a cluster, give a core back, give a
  cluster back). `ClusterInvariant`, `ClusterSteps` and `ClusterSound` prove the partition of cores and clusters and the
  cpuset sizes, `ClusterBinding` what failing bind commands do to them, `ClusterLedger` and `ClusterReturns` the loan
  ledger, `ClusterLostLoan` a loan that is lost, `ClusterMeaning` and `ClusterChoice` who lends and what is taken, and
  `ClusterRuns` all of it for whole runs. The class in `ClusterAffinityAdapt` updates its tables in place and comes to the
  same states.
- **Instance run handler** (`Run*.dfy`): messages from clients and plugins change subscriptions, topic flags and enabled
  instances; a schedule runs them. `RunSpec` describes each message and the tick, `RunInvariant` what they keep,
  `RunMeaning` what each of them does to every table, `RunSystem` whole runs and the end of teardowns, `RunSchedule` run
  times and stalls; the class in `RunHandler` is the handler object.
- **Wire format** (`Codec`, `DataCodec`, `CodecBytes`, `Streams`, `Frames`, `SocketStream`): byte formats, payloads,
  frames, and the buffered reader over a socket that delivers bytes in arbitrary chunks.
- **Keys and lists as text** (`TopicKey`, `CpusetText`).
- **Two smaller allocators** (`BinaryCores`, `BinaryTune` and, for rounds and runs, `BinaryRounds` and `BinaryMeaning`;
  `LoadBasedScheduling`).

`Seqs` holds facts about sequences. `dfyconfig.toml` lets `dafny verify dfyconfig.toml` check everything together.

## How the model is built

The handler's nested flag table is a map keyed by topics, and the subscriber table one keyed by texts. The two agree, and
the keys an instance keeps lead back to what is open at its plugin, as long as the texts and the topics name each other;
`RunInvariant.SubscribeAgreesExactly`, `PublishThenDisable` and `SubscribeThenDisable` say exactly when a message breaks that.
Start-up refuses a machine without clusters, so the other operations of the cluster plugin assume them.

Every stateful component has a specification on values and a class whose methods state that the fields change exactly as
specified; the theorems are about the specification. `ClusterMeaning`, `ClusterChoice`, `RunMeaning`, `BinaryMeaning` and
`CodecBytes` say what the specifications come to in terms of samples, tables, quotas and bytes.

Doubles are reals. A char stands for a byte. Iteration orders of hash tables are parameters. What comes from outside is a parameter too: usage samples, loads and cache counters, the node a
container goes to, whether a command or a write succeeds, what a plugin answers and posts, and how many bytes a recv
delivers.

The cluster-affinity results assume a uniform and contiguous topology, loads below 100 for every CPU (otherwise
`FullyLoadedClusterFails` applies), every lending or borrowing container bound with a positive initial limit, and enough
free clusters for the additions of a round, counted before the round; the source checks none of these. Failing commands
are part of the steps; `ClusterRuns.NextGoodExactly` says which of them a run may contain.

Where the code and its comments or names suggest different things, the model follows the code:

- A topic's open flag does not say that the plugin has the topic open (`RunSystem.ResubscribedButClosed`).
- Subscribing to a key without the last separator raises the flag of a topic nobody subscribes to (`RunInvariant.TwoFieldKey`),
  and a published topic with "::" in its parameters stays open when its instance is disabled
  (`RunInvariant.PublishedAndLeftOpen`).
- Reading the 16-byte length prefix is not repeated when it comes back short (`Frames.CutPrefixReceived`).
- A failed update command of a lender loses track of its loan (`ClusterLostLoan.FailedLenderLosesLoan`).
- A failed bind command marks its container as bound with its old cpuset (`ClusterRuns.FailedBindKeepsCpus`).
- "Clear dead thread" drops the record of every thread that no container lists, dead or not (`BinaryRounds.UnlistedIsLost`),
  and keeps that of a dead one until then, so that a new thread with its number is taken for it
  (`BinaryRounds.ReusedNumberIsLost`).
- `usedCpus` of the load-based scheduler is never filled, so its skip branch is never taken.

## Model

| member | source | states |
|---|---|---|
| `ClusterRuns.ReachableStates` | src/plugin/tune/docker/cluster_affinity/cluster_affinity_adapt.cpp:334-625 | In every state reached from start-up by samples, bind, borrow and return rounds: a bound container holds ceil(limit) distinct CPUs, no CPU has two holders, the limits add up to the initial limits, and without outstanding loans everybody is at the initial limit |
| `ClusterRuns.RunGood` | src/plugin/tune/docker/cluster_affinity/cluster_affinity_adapt.cpp:334-625 | Every admissible run keeps the partition of cores and clusters, the cpuset sizes and the loan ledger |
| `ClusterRuns.NextGoodExactly` | src/plugin/tune/docker/cluster_affinity/cluster_affinity_adapt.cpp:530-832 | Each single step (sample, bind, borrow round, return round) keeps all three exactly when no lender's update command fails in a round that lends, and no bind command of a container that is not in place already |
| `ClusterRuns.FailedBindKeepsCpus` | src/plugin/tune/docker/cluster_affinity/cluster_affinity_adapt.cpp:699-832 | A container of limit 2 on six CPUs whose bind command fails is marked as bound with six CPUs; the step was possible and the sizes are lost |
| `ClusterRuns.StartGood` | src/plugin/tune/docker/cluster_affinity/cluster_affinity_adapt.cpp:123-155 | The tables set up at start-up satisfy all three |
| `ClusterLedger.BorrowRoundLedger` | src/plugin/tune/docker/cluster_affinity/cluster_affinity_adapt.cpp:530-584 | A borrow round keeps the ledger exactly when nothing was lent or no lender's update command failed: a failed command leaves a lender unmarked whose limit has gone |
| `ClusterLostLoan.FailedLenderLosesLoan` | src/plugin/tune/docker/cluster_affinity/cluster_affinity_adapt.cpp:563-584 | One idle and one busy container, and the idle one's update command fails: its limit is halved, it is not marked as lending, the other's loan names it, and no return round recalls it |
| `ClusterLedger.BorrowRoundBooks` | src/plugin/tune/docker/cluster_affinity/cluster_affinity_adapt.cpp:530-584 | A borrow round changes each container's limit, loan map and lender mark by exactly the planned amounts and nothing else about its account |
| `ClusterLedger.TotalConserved` | src/plugin/tune/docker/cluster_affinity/cluster_affinity_adapt.cpp:563-625 | The limits of all containers add up to their initial limits, because the loans taken add up to the loans given |
| `ClusterLedger.AllReturned` | src/plugin/tune/docker/cluster_affinity/cluster_affinity_adapt.cpp:586-625 | When nobody lends any more, every loan map is empty and every limit is the initial one |
| `ClusterLedger.LimitFloor` | src/plugin/tune/docker/cluster_affinity/cluster_affinity_adapt.cpp:538-545 | No bound container ever falls below half its initial limit |
| `ClusterLedger.OfferIsHalf` | src/plugin/tune/docker/cluster_affinity/cluster_affinity_adapt.cpp:540-546 | A container that may lend always offers exactly half its initial limit: the other branch of the minimum is never smaller |
| `ClusterReturns.ReturnRoundBooks` | src/plugin/tune/docker/cluster_affinity/cluster_affinity_adapt.cpp:586-625 | A return round gives each recalled lender back what it lent and takes from each debtor the sum of its entries for them |
| `ClusterReturns.ReturnRoundLedger` | src/plugin/tune/docker/cluster_affinity/cluster_affinity_adapt.cpp:586-625 | A return round keeps the ledger, whatever the update commands come to |
| `ClusterReturns.DebtCovered` | src/plugin/tune/docker/cluster_affinity/cluster_affinity_adapt.cpp:603-623 | What is called back from a container never exceeds what it has borrowed, nor its limit |
| `ClusterMeaning.WindowsReached` | src/plugin/tune/docker/cluster_affinity/cluster_affinity_adapt.cpp:228-233 | In every reachable state a container's window holds the last thirty samples taken of it, and their sum |
| `ClusterMeaning.ReturnMeaning` | src/plugin/tune/docker/cluster_affinity/cluster_affinity_adapt.cpp:586-625 | Exactly the lenders whose mean sample is at least 95 times their current limit get back what they lent; every container loses, and is docked, exactly what it has borrowed from them |
| `ClusterMeaning.BorrowMeaning` | src/plugin/tune/docker/cluster_affinity/cluster_affinity_adapt.cpp:530-584 | Containers without loans whose thirty samples average at most half the initial limit pool half of it; the others that average at least 90 per cent share the pool equally, if it is 0.01 or more and there is one; loans, limits and marks come out so, offers are recorded in any case |
| `ClusterSound.AddLimitKeeps` | src/plugin/tune/docker/cluster_affinity/cluster_affinity_adapt.cpp:334-467 | Raising a limit by any amount leaves exactly ceil(limit) CPUs, keeps the partition, and touches no other container's entry |
| `ClusterSound.MinusLimitKeeps` | src/plugin/tune/docker/cluster_affinity/cluster_affinity_adapt.cpp:469-528 | Lowering a limit by any amount leaves exactly ceil(limit) CPUs and keeps the partition |
| `ClusterSound.BindTurnKeeps` | src/plugin/tune/docker/cluster_affinity/cluster_affinity_adapt.cpp:800-832 | A bind turn that succeeds binds the container with ceil(initial limit) CPUs of its node; it stops, and leaves the whole state as it was, exactly when the container is due and the node has too few free clusters |
| `ClusterBinding.BindRoundExactly` | src/plugin/tune/docker/cluster_affinity/cluster_affinity_adapt.cpp:699-832 | With failing bind commands the schedule keeps the partition and the sizes exactly when every container whose command fails is, before its turn, on its node with the cores selected for it |
| `ClusterBinding.RoundOutcome` | src/plugin/tune/docker/cluster_affinity/cluster_affinity_adapt.cpp:699-832 | A failed bind command changes nothing but the entry of its container, which keeps its old cores and node: the tables and all other containers come out as if it had succeeded |
| `ClusterSound.CpuSetsDisjoint` | src/plugin/tune/docker/cluster_affinity/cluster_affinity_adapt.cpp:350-449 | A CPU of one bound container is in no other's cpuset |
| `ClusterSteps.WidenKeeps` | src/plugin/tune/docker/cluster_affinity/cluster_affinity_adapt.cpp:350-448 | Widening by a number of CPUs takes the fewest new clusters of the container's node that suffice, adds exactly that many CPUs, and changes no other container, node or cluster |
| `ClusterSteps.WidenTakesFree` | src/plugin/tune/docker/cluster_affinity/cluster_affinity_adapt.cpp:380-446 | Every added CPU was a free core, and the last new cluster is asked for at least one core and no more than it has |
| `ClusterSteps.GiveBackKeeps` | src/plugin/tune/docker/cluster_affinity/cluster_affinity_adapt.cpp:478-510 | Giving back never empties the list of bound clusters, and takes exactly the CPUs owed |
| `ClusterSteps.BindToKeeps` | src/plugin/tune/docker/cluster_affinity/cluster_affinity_adapt.cpp:699-772 | Binding takes whole free clusters of one node and exactly the cores needed from them |
| `ClusterChoice.WidenLeast` | src/plugin/tune/docker/cluster_affinity/cluster_affinity_adapt.cpp:350-446 | An addition takes the least loaded free cores of a cluster and the least accessed free clusters of the node |
| `ClusterChoice.BindToLeast` | src/plugin/tune/docker/cluster_affinity/cluster_affinity_adapt.cpp:699-765 | So does binding |
| `ClusterChoice.GiveBackNewest` | src/plugin/tune/docker/cluster_affinity/cluster_affinity_adapt.cpp:489-510 | The newest cores go back first, from the newest cluster that has any; older clusters are untouched |
| `ClusterChoice.StartMeaning` | src/plugin/tune/docker/cluster_affinity/cluster_affinity_adapt.cpp:123-155 | At start-up exactly the first hardware threads of every cluster are free, the others set aside, and each node's clusters free |
| `ClusterInvariant.GrabKeeps` | src/plugin/tune/docker/cluster_affinity/cluster_affinity_adapt.cpp:363-378 | Taking free cores of a held cluster keeps every cluster's and node's partition and every owner |
| `ClusterInvariant.ClaimKeeps` | src/plugin/tune/docker/cluster_affinity/cluster_affinity_adapt.cpp:405-424 | Taking a free cluster keeps them too |
| `ClusterInvariant.DropKeeps` | src/plugin/tune/docker/cluster_affinity/cluster_affinity_adapt.cpp:500-503 | Giving back the newest core of the newest cluster keeps them |
| `ClusterInvariant.ReleaseKeeps` | src/plugin/tune/docker/cluster_affinity/cluster_affinity_adapt.cpp:491-499 | Giving back a cluster without cores in use keeps them |
| `ClusterSelection.PickCpusExact` | src/plugin/tune/docker/cluster_affinity/cluster_selector.cpp:120-137 | Successive selections return distinct free CPUs exactly when no more are asked for than there are free CPUs below full load, plus one while the first CPU of the cluster is free at full load |
| `ClusterSelection.FullyLoadedClusterFails` | src/plugin/tune/docker/cluster_affinity/cluster_selector.cpp:120-137 | With all CPUs at full load, the first CPU of the cluster is returned although it is in use |
| `ClusterSelection.NextCpuMeaning` | src/plugin/tune/docker/cluster_affinity/cluster_selector.cpp:120-137 | The selected CPU is the first of the least loaded free CPUs when one is below full load, and the first CPU of the cluster otherwise |
| `ClusterSelection.NextClusterMeaning` | src/plugin/tune/docker/cluster_affinity/cluster_selector.cpp:89-118 | The selected cluster is free and no free cluster of the node has fewer cache accesses |
| `ClusterSelection.PickClustersFree` | src/plugin/tune/docker/cluster_affinity/cluster_selector.cpp:89-118 | Successive selections return distinct free clusters of the node as long as there are enough |
| `ClusterSelection.ClusterSelector.SelectIdleCpuFromCluster` | src/plugin/tune/docker/cluster_affinity/cluster_selector.cpp:120-137 | The loop over the loads finds the specified CPU |
| `ClusterSelection.ClusterSelector.SelectIdleCluster` | src/plugin/tune/docker/cluster_affinity/cluster_selector.cpp:89-118 | The loop over the cluster counters finds the specified cluster, or -1 for a node out of range |
| `ClusterSelection.ClusterSelector.SetL3cCount` | src/plugin/tune/docker/cluster_affinity/cluster_selector.cpp:212-221 | The running sum stays the sum of the window, which holds the last ten counts |
| `ClusterSelection.PushIsLastTen` | src/plugin/tune/docker/cluster_affinity/cluster_selector.cpp:212-221 | The window after any number of counts is the last ten of them |
| `ClusterSelection.ViewMeaning` | src/plugin/tune/docker/cluster_affinity/cluster_selector.cpp:92-136 | A cluster's counter is the total, modulo 2^64, of the last ten counts recorded for its L3 cache |
| `ClusterAffinity.ClusterAffinityAdapt.InitSystemClusters` | src/plugin/tune/docker/cluster_affinity/cluster_affinity_adapt.cpp:123-155 | Sets up the start tables: first siblings free, second ones set aside, all clusters free |
| `ClusterAffinity.ClusterAffinityAdapt.DockerAddCpuLimitComm` | src/plugin/tune/docker/cluster_affinity/cluster_affinity_adapt.cpp:334-467 | Updating the tables in place comes to the specified addition |
| `ClusterAffinity.ClusterAffinityAdapt.DockerMinusCpuLimitComm` | src/plugin/tune/docker/cluster_affinity/cluster_affinity_adapt.cpp:469-528 | Updating the tables in place comes to the specified withdrawal; the loop ends |
| `ClusterAffinity.ClusterAffinityAdapt.DockerBindClusters` | src/plugin/tune/docker/cluster_affinity/cluster_affinity_adapt.cpp:699-772 | Updating the tables in place comes to the specified binding, for either outcome of its commands |
| `ClusterAffinity.ClusterAffinityAdapt.DockerOptimizeBindSchedule` | src/plugin/tune/docker/cluster_affinity/cluster_affinity_adapt.cpp:800-832 | The schedule serves the containers in order, goes on after a failed command, and stops at the first container that does not fit |
| `ClusterAffinity.ClusterAffinityAdapt.TryBorrowCpuFromIdleDocker` | src/plugin/tune/docker/cluster_affinity/cluster_affinity_adapt.cpp:530-584 | The loops over lenders and borrowers come to the specified borrow round |
| `ClusterAffinity.ClusterAffinityAdapt.TryReturnCpuToIdleDocker` | src/plugin/tune/docker/cluster_affinity/cluster_affinity_adapt.cpp:586-625 | The nested loops over recalled lenders and debtors come to the specified return round |
| `ClusterBulk.FillAllIsFilled` | src/plugin/tune/docker/cluster_affinity/cluster_affinity_adapt.cpp:426-446 | Collecting the new CPUs and writing the cpuset once at the end gives the same state as writing it after every cluster |
| `ClusterBulk.GivingTurn` | src/plugin/tune/docker/cluster_affinity/cluster_affinity_adapt.cpp:489-520 | Trimming the cpuset once at the end gives the same state as removing each CPU when its core is freed |
| `CpusetText.RoundTrip` | src/plugin/tune/docker/cluster_affinity/cluster_affinity_adapt.cpp:627-681 | Parsing a printed list gives back the list, in its order and with repetitions; the parser's counter overflows exactly when the list ends in INT_MAX - 1, INT_MAX |
| `CpusetText.ConvertCpusetToString` | src/plugin/tune/docker/cluster_affinity/cluster_affinity_adapt.cpp:627-659 | The loop prints the maximal runs of consecutive numbers as ranges, without overflow as long as INT_MAX comes last |
| `CpusetText.TransformStrToVec` | src/plugin/tune/docker/cluster_affinity/cluster_affinity_adapt.cpp:661-681 | The parser computes the specified list, or fails where a number cannot be read |
| `CpusetText.ParseRange` | src/common/utils.cpp:347-365 | The second parser computes the same |
| `CpusetText.StoiOfDigits` | src/plugin/tune/docker/cluster_affinity/cluster_affinity_adapt.cpp:669-675 | A printed number is read back |
| `CpusetText.StoiMeaning` | src/plugin/tune/docker/cluster_affinity/cluster_affinity_adapt.cpp:669-675 | White space, a sign, digits and anything after them are read as the number; without digits or out of range reading fails |
| `CpusetText.ValueOfPlaces` | src/plugin/tune/docker/cluster_affinity/cluster_affinity_adapt.cpp:669-675 | Digits count by their places, leading zeros included |
| `CpusetText.RunsMaximal` | src/plugin/tune/docker/cluster_affinity/cluster_affinity_adapt.cpp:640-651 | No two neighbouring printed runs could be joined |
| `TopicKey.KeyRoundTrip` | include/oeaware/topic.h:37-48 | A key names its topic back exactly when no field contains "::" and neither name ends in ":" |
| `TopicKey.CanonicalKeys` | include/oeaware/topic.h:37-48 | The keys on which the flat and the nested table agree are exactly the keys of well-formed topics |
| `TopicKey.ParsedIsWellFormed` | include/oeaware/topic.h:42-48 | Whatever topic the key of a topic names is well-formed, even when it is another one |
| `TopicKey.GetTypeIsJoin` | include/oeaware/topic.h:37-40 | The key of a topic is its three fields joined |
| `TopicKey.SplitString` | src/common/utils.cpp:156-166 | Cutting at every separator from the left yields the specified tokens, without an empty last one |
| `TopicKey.Concat` | src/common/utils.cpp:144-154 | The loop joins the strings with "::" between neighbours |
| `RunSystem.ReachableStates` | src/plugin_mgr/instance_run_handler.cpp:20-306 | In every state reached by any messages with keys of two fields or more, any plugin answers and ticks: enabled instances are scheduled and nobody has more entries than it was enabled times; if no subscription has a non-canonical key of a well-formed topic, flags of well-formed topics are up exactly when there is a subscriber; if every subscribed topic, and every published one that has a name, names itself back, disabled instances have nothing open at the plugin |
| `RunInvariant.HandleKeeps` | src/plugin_mgr/instance_run_handler.cpp:201-254 | Every message keeps enabled instances scheduled and bounds their entries, whatever the plugins answer |
| `RunInvariant.TickKeeps` | src/plugin_mgr/instance_run_handler.cpp:262-306 | So does a tick |
| `RunInvariant.HandleAgrees` | src/plugin_mgr/instance_run_handler.cpp:201-254 | Every message except a subscription with a non-canonical key of a well-formed topic keeps flags and subscribers in agreement; publications of any topic do |
| `RunInvariant.HandleCovers` | src/plugin_mgr/instance_run_handler.cpp:201-254 | Every message that opens no topic, or only one that names itself back, keeps what is open at a plugin covered by the kept keys |
| `RunSystem.RunAgrees` | src/plugin_mgr/instance_run_handler.cpp:201-306 | So does every run of such messages and ticks |
| `RunSystem.RunCovers` | src/plugin_mgr/instance_run_handler.cpp:201-306 | Likewise for the cover |
| `RunMeaning.SubscribersAfter` | src/plugin_mgr/instance_run_handler.cpp:57-148 | Over all messages: an accepted subscription adds exactly its reader to its key, unsubscribing removes exactly that pair, the departure of a client exactly all its pairs, and nothing else changes who subscribes |
| `RunMeaning.KeysAfter` | src/plugin_mgr/instance_run_handler.cpp:57-199 | Which keys keep an entry: losing the last reader removes it, sending data makes an empty one |
| `RunMeaning.FlagsAfter` | src/plugin_mgr/instance_run_handler.cpp:57-148 | Which flags are up after every message: accepted subscriptions raise one, refreshing lowers those without an entry |
| `RunMeaning.RefreshEnabled` | src/plugin_mgr/instance_run_handler.cpp:94-116 | After a refresh an instance with an entry in the flag table is enabled exactly if it was and one of its flags is still up; others keep their state |
| `RunMeaning.EnabledAfter` | src/plugin_mgr/instance_run_handler.cpp:20-183 | Which instances are enabled after every message |
| `RunMeaning.EntriesAfter` | src/plugin_mgr/instance_run_handler.cpp:31-40 | Which messages enable an instance, and that this adds one entry, at T, T+p or T+2p; no other message touches the schedule |
| `RunMeaning.KeptAfter` | src/plugin_mgr/plugin.cpp:85-98 | Which keys an instance keeps after every message |
| `RunMeaning.OpenAfter` | src/plugin_mgr/plugin.cpp:85-107 | Which topics are open at every plugin after every message: stale ones are closed, and so are those of kept keys when the plugin stops |
| `RunMeaning.SubscribeResult` | src/plugin_mgr/instance_run_handler.cpp:57-91 | A subscription is accepted exactly if the instance exists, is or gets enabled, and the topic is or gets open |
| `RunMeaning.PublishResult` | src/plugin_mgr/instance_run_handler.cpp:150-183 | A publication is accepted exactly if the instance exists and supports the topic, is or gets enabled, and the topic, if any, gets open |
| `RunMeaning.TickMeaning` | src/plugin_mgr/instance_run_handler.cpp:262-289 | What a tick does to every instance: due entries are dropped when disabled, run once and closed, or run and come back a period later |
| `RunInvariant.SubscribeAgreesExactly` | src/plugin_mgr/instance_run_handler.cpp:57-91 | An accepted subscription keeps flags and subscribers in agreement exactly when its key is canonical, or the flag of the topic it names was up, or that topic is not well-formed |
| `RunInvariant.TwoFieldKey` | src/plugin_mgr/instance_run_handler.cpp:57-91 | Subscribing to "i::t" breaks the agreement: it raises the flag of the topic whose own key is "i::t::" |
| `RunInvariant.PublishThenDisable` | src/plugin_mgr/instance_run_handler.cpp:150-183 | After an accepted publication and a disable, nothing is open at the plugin exactly when the published topic is well-formed or has no name |
| `RunInvariant.SubscribeThenDisable` | src/plugin_mgr/instance_run_handler.cpp:45-91 | The same after an accepted subscription, exactly when its topic is well-formed or its flag was up |
| `RunInvariant.PublishedAndLeftOpen` | src/plugin_mgr/instance_run_handler.cpp:150-183 | Publishing to a topic with parameters "a::b" and disabling leaves the topic open at the disabled instance's plugin |
| `RunInvariant.ShutCovered` | src/plugin_mgr/plugin.cpp:100-107 | Disabling closes every topic the plugin has open when the kept keys cover them |
| `RunInvariant.RefreshAgrees` | src/plugin_mgr/instance_run_handler.cpp:94-116 | Updating the instances after readers have left restores the agreement |
| `RunInvariant.LookupAgrees` | src/plugin_mgr/instance_run_handler.cpp:185-199 | The empty subscriber set that publishing data may insert does not disturb the agreement |
| `RunSystem.DisableAndFlags` | src/plugin_mgr/instance_run_handler.cpp:45-55 | "Flag up means open at the plugin" survives a disable command exactly when no flag of the instance is up |
| `RunSystem.ResubscribedButClosed` | src/plugin_mgr/instance_run_handler.cpp:57-84 | After subscribe, disable command, subscribe, the instance runs with the flag up while its plugin has nothing open |
| `RunSystem.TeardownEnds` | src/plugin_mgr/instance_run_handler.cpp:94-148 | Each message of a teardown brings the triple of outside messages, live flags and instances, and queue length lexicographically down |
| `RunSystem.DrainEnds` | src/plugin_mgr/instance_run_handler.cpp:201-254 | A queue of teardown messages is drained, whatever finite batches of unsubscriptions plugins post meanwhile |
| `RunSystem.RefreshTakesDown` | src/plugin_mgr/instance_run_handler.cpp:94-116 | An update that calls a plugin lowers a flag or disables an instance and never the opposite |
| `RunSteps.RefreshTwice` | src/plugin_mgr/instance_run_handler.cpp:132-148 | Updating after each departure of a client comes to the same as updating once at the end |
| `RunSchedule.StallsExactly` | src/plugin_mgr/instance_run_handler.cpp:262-306 | The schedule never stalls in any run exactly when every instance's first run and period fall on ticks |
| `RunSchedule.RunTimed` | src/plugin_mgr/instance_run_handler.cpp:262-306 | With aligned instances, at every point of every run all entries lie on future ticks |
| `RunSchedule.TickTimed` | src/plugin_mgr/instance_run_handler.cpp:262-289 | After Schedule every entry is strictly later than the clock |
| `RunSchedule.OverdueForever` | src/plugin_mgr/instance_run_handler.cpp:262-270 | An overdue entry stays at the top of the queue for good and nothing runs any more |
| `RunSchedule.EnabledInPhase` | src/plugin_mgr/instance_run_handler.cpp:20-183 | Whatever message enables an instance without entries at T (an enable command, a subscription, a publication) makes T, T+p or T+2p its first run (collector, scenario, tune), and that its only entry |
| `RunSchedule.ExactRunTimes` | src/plugin_mgr/instance_run_handler.cpp:262-306 | While nobody enables or disables it, the instance runs exactly at its first run time and every period after, once each |
| `RunHandler.InstanceRunHandler.EnableInstance` | src/plugin_mgr/instance_run_handler.cpp:20-43 | A plugin's consent enables, counts and schedules the instance; a refusal changes nothing |
| `RunHandler.InstanceRunHandler.DisableInstance` | src/plugin_mgr/instance_run_handler.cpp:45-55 | Disabling closes the topic of every kept key at the plugin and keeps flags, keys and entries |
| `RunHandler.InstanceRunHandler.Subscribe` | src/plugin_mgr/instance_run_handler.cpp:57-91 | In-place handling comes to the specified subscription, with the same result in every refusal |
| `RunHandler.InstanceRunHandler.UpdateInstance` | src/plugin_mgr/instance_run_handler.cpp:94-116 | The nested loops come to the specified refresh, and call no plugin when nothing is stale or idle |
| `RunHandler.InstanceRunHandler.Unsubscribe` | src/plugin_mgr/instance_run_handler.cpp:118-130 | Removes the reader and refreshes |
| `RunHandler.InstanceRunHandler.UnsubscribeSdk` | src/plugin_mgr/instance_run_handler.cpp:132-148 | Removes the client from every topic, refreshing once per departure |
| `RunHandler.InstanceRunHandler.Publish` | src/plugin_mgr/instance_run_handler.cpp:150-183 | Comes to the specified publication; the opened topic gets no flag |
| `RunHandler.InstanceRunHandler.PublishData` | src/plugin_mgr/instance_run_handler.cpp:185-199 | Every client among the subscribers is sent the data exactly once |
| `RunHandler.InstanceRunHandler.HandleMessage` | src/plugin_mgr/instance_run_handler.cpp:201-254 | Working off up to a given number of messages of any kind goes through exactly the specified states and keeps the invariant |
| `RunHandler.InstanceRunHandler.HandleTeardown` | src/plugin_mgr/instance_run_handler.cpp:201-254 | Works a teardown queue off completely, message by message, keeping the invariant |
| `RunHandler.InstanceRunHandler.Schedule` | src/plugin_mgr/instance_run_handler.cpp:262-289 | Ends; runs each instance as often as it has due entries, in the order of priority numbers, and requeues or closes it |
| `RunHandler.InstanceRunHandler.TickAndSleep` | src/plugin_mgr/instance_run_handler.cpp:291-306 | A turn of the main loop runs what is due and moves the clock by the cycle |
| `RunSystem.StartKeeps` | src/plugin_mgr/plugin.cpp:32-48 | Freshly loaded instances satisfy the invariant |
| `RunSteps.LeastEntry` | src/plugin_mgr/instance_run_handler.h:25-29 | Some entry is first in the order of time, then priority number |
| `Codec.MessageLaw` | src/common/message_protocol.h:58-68 | Reading an encoded message gives it back and leaves exactly what follows |
| `Codec.TopicLaw` | include/oeaware/topic.h:22-29 | The same for a topic |
| `Codec.ResultLaw` | include/oeaware/topic.h:58-65 | The same for a result |
| `Codec.IntLaw` | include/oeaware/serialize.h:146-157 | The same for an int, negative ones included |
| `Codec.StrLaw` | include/oeaware/serialize.h:237-252 | The same for a string of any bytes |
| `Codec.VectorLaw` | include/oeaware/serialize.h:291-338 | The same for a vector of anything that has the law |
| `CodecBytes.NatBytes` | include/oeaware/serialize.h:146-157 | Byte k of a written number is its digit of weight 256^k |
| `CodecBytes.TextBytes` | include/oeaware/serialize.h:237-252 | A written text is its length in eight bytes, least significant first, and its bytes |
| `CodecBytes.MessageBytes` | src/common/message_protocol.h:58-62 | The bytes of a message |
| `CodecBytes.TopicBytes` | include/oeaware/topic.h:22-29 | The bytes of a topic: instance, topic, parameters |
| `CodecBytes.ResultBytes` | include/oeaware/topic.h:58-65 | The bytes of a result |
| `CodecBytes.FrameBytes` | src/common/message_protocol.cpp:77-87 | The bytes of a frame: total length, header length, header, message |
| `DataCodec.DataListLaw` | src/common/data_register.cpp:92-129 | A data list of a registered type is read back by the entry that wrote it, up to exactly what follows |
| `DataCodec.PayloadLaw` | src/common/data_register.cpp:538-1198 | So is each payload of every registered format |
| `DataCodec.KernelLaw` | src/common/data_register.cpp:584-629 | The linked list of settings, a negative length included |
| `DataCodec.CommandLaw` | src/common/data_register.cpp:661-706 | The table of command output |
| `DataCodec.StaticLaw` | src/common/data_register.cpp:743-782 | The array and the n-by-n distance matrix |
| `DataCodec.CpuUtilLaw` | src/common/data_register.cpp:848-876 | The (n+1)-by-11 table of CPU times |
| `DataCodec.AnalysisLaw` | src/common/data_register.cpp:931-961 | Analysis items |
| `DataCodec.CLaw` | src/common/data_register.cpp:48-65 | A text survives the trip through a C string exactly when it has no NUL |
| `DataCodec.ArrayLaw` | src/common/data_register.cpp:1036-1041 | ... and through a char array exactly when it also fits |
| `CodecBytes.ThreadBytes` | src/common/data_register.cpp:538-552 | The bytes of a thread record |
| `CodecBytes.KernelBytes` | src/common/data_register.cpp:584-596 | The bytes of kernel settings |
| `CodecBytes.CommandBytes` | src/common/data_register.cpp:661-678 | The bytes of command output |
| `CodecBytes.StaticBytes` | src/common/data_register.cpp:743-760 | The bytes of the static environment |
| `CodecBytes.CpuUtilBytes` | src/common/data_register.cpp:848-860 | The bytes of the CPU times |
| `CodecBytes.AnalysisBytes` | src/common/data_register.cpp:931-945 | The bytes of an analysis |
| `CodecBytes.NetBytes` | src/common/data_register.cpp:974-1190 | The bytes of the network records |
| `CodecBytes.Rooms` | src/common/data_register.cpp:1036-1041 | Interface names have room for 15 characters, the other driver texts for 31 |
| `CodecBytes.DataListBytes` | src/common/data_register.cpp:92-106 | The bytes of a data list |
| `CodecBytes.FormatLookup` | src/common/data_register.cpp:97-100 | The format is looked up under instance and topic first, then under the instance alone |
| `CodecBytes.RegisteredNames` | src/common/data_register.cpp:1255-1261 | Which names have which format |
| `Streams.OutStream.PutStrings` | include/oeaware/serialize.h:291-300 | The loop appends the encoded vector |
| `Streams.InStream.GetStrings` | include/oeaware/serialize.h:327-338 | The loop reads a vector exactly as specified, and fails exactly when the stream is too short |
| `Streams.OutStream.PutMessage` | src/common/message_protocol.h:58-62 | Writing a message appends its encoding |
| `Streams.InStream.GetMessage` | src/common/message_protocol.h:63-68 | Reading a message follows the specified decoding |
| `Streams.KernelDataList.Serialize` | src/common/data_register.cpp:584-596 | Walking the nodes appends the encoding of the list they hold |
| `Streams.KernelDataDeserialize` | src/common/data_register.cpp:598-629 | Builds a well-linked list of new nodes holding exactly the decoded length and pairs; a negative length gives no nodes |
| `Frames.ReadRefinesStream` | src/common/message_protocol.cpp:26-70 | A read hands out the next bytes, at most as many as asked, and loses none |
| `Frames.NothingLost` | src/common/message_protocol.cpp:26-70 | Over any sequence of requests and any recv results, bytes handed out, unread and not yet received are the bytes sent |
| `Frames.ReadBufExact` | src/common/message_protocol.cpp:89-101 | A successful ReadBuf returns exactly the requested number of next bytes; a failed one fewer |
| `Frames.ReadCount` | src/common/message_protocol.cpp:26-70 | How many bytes a read hands out: what is buffered, or else what one recv of at least 4096 bytes delivers, up to the number asked for |
| `Frames.ReceptionMeaning` | src/common/message_protocol.cpp:103-130 | Any reception, of frames or not: what header and body are, and that it succeeds while data flows exactly if enough bytes come |
| `Frames.FrameReceived` | src/common/message_protocol.cpp:103-130 | With a complete prefix, one frame is taken off the stream and decodes to what was sent |
| `Frames.AllReceived` | src/common/message_protocol.cpp:77-130 | Messages sent back to back are received in order under any chunking that cuts no prefix, up to the last byte |
| `Frames.BoundaryExactly` | src/common/message_protocol.cpp:106-128 | A frame is received and left behind exactly up to its last byte if and only if the first read returned all 16 bytes |
| `Frames.CutPrefixReceived` | src/common/message_protocol.cpp:106-128 | A first recv of 15 bytes: reception succeeds, one byte of the frame is left over, and the header is wrong |
| `SocketStream.SocketStream.Read` | src/common/message_protocol.cpp:26-70 | The buffer and its two positions implement the specified read |
| `SocketStream.ReadBuf` | src/common/message_protocol.cpp:89-101 | The loop implements the specified ReadBuf |
| `SocketStream.RecvMessage` | src/common/message_protocol.cpp:103-130 | Implements the specified reception, with the conversions of lengths to int |
| `BinaryCores.BindingFits` | src/plugin/tune/system/binary/binary_tune.cpp:365-385 | With at most half a node's CPUs promised, every waiting container gets exactly its quota of cores, inside the node, at even offsets, none shared |
| `BinaryCores.AllBoundExactly` | src/plugin/tune/system/binary/binary_tune.cpp:370-384 | All waiting containers are bound exactly when their quotas add up to at most the node's cores |
| `BinaryCores.MasksDisjoint` | src/plugin/tune/system/binary/binary_tune.cpp:370-384 | Two bound containers share no core |
| `BinaryCores.WaitingWithinTotal` | src/plugin/tune/system/binary/binary_tune.cpp:325-329 | The waiting containers' quotas are part of the count that is compared with half the node |
| `BinaryRounds.RoundOutcome` | src/plugin/tune/system/binary/binary_tune.cpp:256-421 | When no attempt fails, a thread of one container ends a round at its own affinity if a node over capacity is visited no earlier than it is set, else with what is chosen for it: any CPU, all cores of its node or its container's share; without a choice nothing changes |
| `BinaryMeaning.RoundMeaning` | src/plugin/tune/system/binary/binary_tune.cpp:256-421 | The round in terms of quotas and CPU lists: where a thread ends up by its policy, whether its container has all CPUs of a node, and which nodes' whole-CPU quotas add up to more than half their CPUs |
| `BinaryMeaning.TotalMeaning` | src/plugin/tune/system/binary/binary_tune.cpp:325-326 | A node's count is the sum, over the containers that fill it, of quota over period towards zero |
| `BinaryMeaning.ShareBounds` | src/plugin/tune/system/binary/binary_tune.cpp:325-380 | Within capacity a waiting thread gets c cores with c periods <= quota < c + 1 periods, and none when the quota is -1 |
| `BinaryMeaning.FillsMeaning` | src/plugin/tune/system/binary/binary_tune.cpp:265-278 | A container fills a node exactly if it has as many CPUs as a node and all of them lie there |
| `BinaryMeaning.SharesApart` | src/plugin/tune/system/binary/binary_tune.cpp:365-385 | Waiting threads of two containers of a node share no core |
| `BinaryRounds.ChosenCores` | src/plugin/tune/system/binary/binary_tune.cpp:365-421 | Within capacity, a waiting thread's share is as many cores of its node, at even offsets, as its container may use CPUs |
| `BinaryRounds.ThreadBound` | src/plugin/tune/system/binary/binary_tune.cpp:365-385 | When no attempt fails, a thread waiting in one container only ends up with exactly that container's cores |
| `BinaryRounds.AllAttempted` | src/plugin/tune/system/binary/binary_tune.cpp:353-363 | When no attempt fails, exactly the listed live threads get the mask |
| `BinaryRounds.OverCapacityRestores` | src/plugin/tune/system/binary/binary_tune.cpp:408-417 | A node over capacity, at any position, returns every listed thread that no later node sets to its own affinity, whichever attempts fail |
| `BinaryRounds.RoundExactly` | src/plugin/tune/system/binary/binary_tune.cpp:338-421 | Whatever attempts fail, a round keeps every live thread restorable exactly when no changed live thread has left the containers |
| `BinaryRounds.UnlistedIsLost` | src/plugin/tune/system/binary/binary_tune.cpp:338-346 | A changed live thread that no container lists at a round loses its record there: disabling leaves it as it was set, not at its own affinity |
| `BinaryRounds.ReusedNumberIsLost` | src/plugin/tune/system/binary/binary_tune.cpp:338-363 | When a changed thread exits and another starts under its number before the next round, disabling gives the new thread the affinity of the old one |
| `BinaryRounds.RunExactly` | src/plugin/tune/system/binary/binary_tune.cpp:152-421 | Throughout a run of rounds, thread starts and exits and disables, every live thread is restorable exactly when at every round no changed live thread has left the containers, and no thread starts under a number with a different mask on record |
| `BinaryRounds.RunThenDisable` | src/plugin/tune/system/binary/binary_tune.cpp:152-163 | After such a run, disabling returns every live thread to the affinity it had before it was first changed |
| `BinaryTune.ReadStatic` | src/plugin/tune/system/binary/binary_tune.cpp:77-98 | The loop assigns every CPU its node, and every node its CPUs with even numbers |
| `BinaryTune.BinaryTune.TakeCores` | src/plugin/tune/system/binary/binary_tune.cpp:372-380 | The inner loop takes the next cores up to the end of the node |
| `BinaryTune.BinaryTune.BindCpuCore` | src/plugin/tune/system/binary/binary_tune.cpp:365-385 | One pass over the node's cores comes to the specified bindings |
| `BinaryTune.BinaryTune.FindSpecialBin` | src/plugin/tune/system/binary/binary_tune.cpp:256-336 | Counts quotas per node and groups the waiting threads as specified; loosens the threads of other containers |
| `BinaryTune.BinaryTune.SetAffinity` | src/plugin/tune/system/binary/binary_tune.cpp:353-363 | Changes a mask only if it differs, and records the former one the first time only |
| `BinaryTune.BinaryTune.Run` | src/plugin/tune/system/binary/binary_tune.cpp:394-421 | The loop over the nodes comes to the specified round; nothing happens while some CPU is offline |
| `BinaryTune.BinaryTune.Disable` | src/plugin/tune/system/binary/binary_tune.cpp:152-163 | Every thread is back at its own affinity |
| `LoadBasedScheduling.SlicesDisjoint` | src/plugin/tune/docker/load_based_scheduling/load_based_scheduling.cpp:261-283 | Slices written in one round share no CPU, on one node or on two |
| `LoadBasedScheduling.SlicesInRange` | src/plugin/tune/docker/load_based_scheduling/load_based_scheduling.cpp:264-273 | Every slice lies within its node's list of CPUs |
| `LoadBasedScheduling.FewLeftOver` | src/plugin/tune/docker/load_based_scheduling/load_based_scheduling.cpp:264-283 | When all writes succeed, fewer CPUs are left over than the node has busy containers |
| `LoadBasedScheduling.OffersMeaning` | src/plugin/tune/docker/load_based_scheduling/load_based_scheduling.cpp:228-284 | The slices a round offers go to exactly the containers whose load exceeds the threshold times their limit, or times their CPUs when the limit is -1, in their order, each on the node of its first CPU, an equal share behind the slices written before |
| `LoadBasedScheduling.OneSliceEach` | src/plugin/tune/docker/load_based_scheduling/load_based_scheduling.cpp:228-284 | With distinct names a container has exactly one slice if it is overloaded, and none otherwise |
| `LoadBasedScheduling.LoadBasedScheduling.UpdateNumaInfo` | src/plugin/tune/docker/load_based_scheduling/load_based_scheduling.cpp:100-113 | The first message with CPUs is kept for good; of several records each appends its CPUs and the last one decides a CPU's node |
| `LoadBasedScheduling.EachOnceExactly` | src/plugin/tune/docker/load_based_scheduling/load_based_scheduling.cpp:105-112 | No CPU is listed twice exactly when at most one record of the message names CPUs |
| `LoadBasedScheduling.NodeByMeaning` | src/plugin/tune/docker/load_based_scheduling/load_based_scheduling.cpp:105-112 | A CPU's node is the one in the last record that has the CPU |
| `LoadBasedScheduling.LoadBasedScheduling.Run` | src/plugin/tune/docker/load_based_scheduling/load_based_scheduling.cpp:243-284 | The two loops offer each busy container its floor share behind the slices already written |

## Left out

- HandleMessage: handles at most a given number of messages; plugins may refill the queue for ever, so that emptying it has no end to prove. HandleTeardown shows it for queues of disable and unsubscribe messages.
- RecvMessage: excludes lengths whose difference, taken as ints, overflows; that is undefined in the source.
- DockerAddCpuLimitComm: the outcome of the two update commands only decides the result, as in the source; what the container runtime then really uses is not modelled.
- TryBorrowCpuFromIdleDocker: the failure of a borrower's update command is not modelled, since the source only logs it.
- TransformStrToVec: excludes texts in which a range ends at INT_MAX, where the source's counter overflows.
- ParseRange: excludes them too.
- ConvertCpusetToString: excludes lists with a number after INT_MAX, where the source's sum overflows, and negative numbers, which no CPU has.
- SplitString: models the separator "::" only; other separators are regular expressions.
- Subscribe: a key with fewer than two fields, where the source reads past the token list, is excluded.
- GetStrings: reports failure where the stream is too short; the source goes on with partly filled data.
- RunThenDisable: restoring an affinity is taken to succeed, and only the plugin changes affinities.
- DataListLaw: leaves out the PMU entries of the registry, whose data comes from libkperf.
- PayloadLaw: leaves out the PMU formats, likewise.
- Container departure and shutdown of the cluster-affinity plugin: the source keeps freed CPUs in the occupied list and does not erase loans there.
- SelectIdleNode and SelectBindingNuma: the node is an input of the bind round.
- Plugin loading and removal, and the commands that query or list instances.
- Period zero of a repeating instance: Schedule would run it for ever within one call.
- Wrap-around of the 64-bit clock and of limits held as doubles.
- topicRunOnce of the handler, which is written and never read.
- The priority queue is kept as each instance's bag of pending times; entries equal in time and priority may run in any order.
- Payload codecs other than the linked kernel settings are functions on values; their arrays and freeing are not modelled.
- Short sends: the source hands a whole frame to send once and ignores how much was taken.
- Reading executables, cgroup files, YAML, /proc and PMU data, logging, permissions and sockets.
