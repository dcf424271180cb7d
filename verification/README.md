# A verified model of the network runner

The network runner starts a local cluster of node processes and controls it: it adds,
removes, pauses, resumes and restarts nodes, creates subnets and blockchains on the
cluster, saves it as a snapshot and loads it again, and offers all of this through a
control server. This project models the parts of it that keep state, and proves what
they keep.

| file | what it models |
|---|---|
| `Common.dfy`, `Strings.dfy`, `Paths.dfy`, `Places.dfy` | results and failures; sorting, splitting, joining and printing; cleaned paths, and where a path leads |
| `Flags.dfy`, `CommandLine.dfy` | flag maps, ports and command lines, and the flag names of older node versions; what a command line says, flag by flag |
| `DefaultPorts.dfy` | the ports of the default configuration |
| `ProcessProtocol.dfy` | the stop protocol of one process, as interleaved steps of all its goroutines |
| `Network.dfy`, `Runs.dfy` | the network as a state, what each operation makes of it, and whole runs |
| `BeaconSet.dfy`, `StaleBeacon.dfy`, `Startup.dfy`, `Defaults.dfy` | what runs keep about beacons, starting order and defaults |
| `LocalNetworks.dfy` | the network as an object whose methods update its fields, proved against `Network.dfy` |
| `NodeResults.dfy` | what every operation leaves behind, in terms of what was asked for |
| `TrackedSubnets.dfy`, `Chains.dfy`, `Validators.dfy`, `Installation.dfy` | installing subnets and blockchains, against an abstract platform chain |
| `Snapshot.dfy`, `SnapshotResults.dfy`, `SnapshotFiles.dfy` | snapshots: the round trip, what is in a file and what a load makes of it, and the methods that write and read them |
| `InfoCache.dfy`, `InfoResults.dfy` | the cached node infos, as interleaved steps of a request and of the goroutine that rebuilds them; what either comes to |
| `Servers.dfy` | the control server, with goroutines that may complete late |

How the model is built:

- A `Flags` map is shared by reference in the source. Here it is an address in the store
  of the network, so two nodes may share one map and every write is seen by both.
- A process is an entry in a list that only grows; its index is its pid. It has not
  stopped as long as it has no exit code.
- Go visits a map in any order. A loop over a map here takes any remaining key.
- What the outside decides is a parameter: free ports, exit codes, whether files can be
  written, the node ID a certificate stands for, the answers of the platform chain, the
  IDs of new subnets, whether nodes get healthy. A waiting loop ends after any number of
  rounds, which is a parameter too.
- `dafny verify dfyconfig.toml` checks the whole project.

Where the code does not do what one would expect, the code is modelled, and the exact
condition is proved:

- Adding a node over a paused beacon leaves the beacon set stale, exactly if
  `BeaconSet.InstallOverPausedAgreesIff` says so; `StaleBeacon.StaleBeaconRun` is such a run.
- A request about a node can succeed and leave a cache that does not agree with the network,
  because the goroutine of a snapshot load rebuilds the same infos meanwhile. `InfoCache`
  shows exactly when: `UnlockedAgreesIff` for pausing and resuming, `LockedAgreesIff` for the
  others, and `PauseCanDisagree` is a run in which it happens.
- The check that all validators of a subnet are nodes of the network passes exactly if the
  nodes that share IDs make up for the validators that are absent (`Chains.CheckPassesIff`);
  `Chains.SharedIdFoolsTheCheck` is an input on which it is fooled.
- A network without a beacon can be saved but not loaded (`Snapshot.NoBeaconNoReload`).
- A tracked flag of nothing but commas loses an entry (`TrackedSubnets.TrackedAfterMeans`).
- Waiting for a network without nodes indexes an empty list (`Servers.Server.AwaitHealthy`).
- The comment in `restartNodes` says that the node's own flag is deleted, but the code
  extends it.

## Model

| member | source | states |
|---|---|---|
| `ProcessProtocol.RunKeepsInv` | local/node_process.go:104-186 | every interleaving of start, awaitExit and any number of Stop and Status calls keeps the invariant of lock, channel, status, leader and exit code |
| `ProcessProtocol.StatusOnlyAdvances` | local/node_process.go:104-179 | over any stretch of any run the status only moves from Running to Stopping to Stopped |
| `ProcessProtocol.StopProtocolIsSafe` | local/node_process.go:104-186 | the channel is closed at most once and, with the lock free, exactly when Stopped; at most one call signals; a call has returned only if Stopped, and then with the code that the operating system reported, or -1 without one; no call holds the lock while it waits |
| `ProcessProtocol.RunsAreBounded` | local/node_process.go:121-179 | left to itself the protocol makes a bounded number of steps |
| `ProcessProtocol.NoDeadlock` | local/node_process.go:121-179 | if no goroutine can move, the lock is free, new calls can come, and every Stop call has returned, or a kill was sent and the exit is still due, with any code |
| `ProcessProtocol.EveryStopReturns` | local/node_process.go:133-179 | after any history, when the protocol has come to rest every Stop call has returned with the code that the operating system reported, or -1 if the process never ran, unless a kill was survived |
| `ProcessProtocol.PatientStopReturns` | local/node_process.go:159-179 | without a context that ends no kill is sent, and once the process has exited every Stop call returns without one |
| `ProcessProtocol.ReturnedCodesAreReal` | local/node_process.go:133-179 | in every run, whatever code a Stop call returned is the one the process exited with in that run, and -1 if it exited with none |
| `ProcessProtocol.StatusTellsTheTruth` | local/node_process.go:181-186 | Status returns Stopped once a Stop call has returned, and Running for a started process before the first Stop call has decided |
| `Flags.AddNetworkFlags` | local/helpers.go:265-280 | for every visiting order the result is the network's flags overridden by the node's |
| `Flags.ConfiguredPortIsKept` | local/helpers.go:184-224 | without reassignment a configured port is used as it is or refused as taken |
| `Flags.Overlay` | local/network.go:1102-1104 | for every visiting order the second map wins over the first |
| `Flags.OverlayNodeFlags` | local/network.go:1114-1122 | for every visiting order the node's flags are printed over the others, except for the two ports |
| `Flags.ComputeArgs` | local/network.go:1035-1144 | the imperative buildArgs gives exactly the layered command line and its errors |
| `Flags.BuildArgsErrors` | local/network.go:1035-1144 | the only failures are a flag of the wrong type, no free port, a taken port and a file that cannot be written |
| `Flags.LayerOf` | local/network.go:1085-1122 | before translation a flag comes from the node's flags if they have it (but for the ports), else from the file flags, else from the defaults, else it is absent |
| `Flags.RecordedIsPassed` | local/network.go:1035-1144 | the data, db and log directories recorded for a node are those passed to its process, and the ports are passed as numerals that read back as the recorded ports |
| `Flags.NodeFlagIsPassed` | local/network.go:1085-1122 | any other flag of a node reaches its process as the node has it, and the beacon lists do unless its flags name others |
| `Flags.TrackedIsPassed` | local/network.go:1114-1134 | the tracked subnets reach the process under the name that its version knows |
| `Flags.PinnedIsRederived` | local/network.go:869-977 | started again from pinned flags under any network flags, a node gets the recorded directories and, without reassignment, the recorded ports |
| `Flags.FlagsForVersion` | local/network.go:1168-1184 | the loop over the deprecation table renames both flags for an older version and none for a current one |
| `Flags.TranslationRenames` | local/network.go:1168-1184 | for an older version the new names are gone and their non-empty values are under the old names; for a current one nothing changes |
| `Flags.TranslationKeepsOthers` | local/network.go:1168-1184 | no other flag is touched |
| `Flags.TranslationIsIdempotent` | local/network.go:1168-1184 | a second translation changes nothing |
| `Flags.FixUndoesTranslation` | local/snapshot.go:29-51 | fixing a translated command line gives it back, up to empty renamed flags, if and only if its plugin directory, if any, is a cleaned path that ends in plugins |
| `CommandLine.PortIsChosen` | local/helpers.go:184-224 | a port is found if and only if the flag or the config file gives a number or a random port can be had, a taken port can be replaced if it may, and it is free; it is then the replacement, the flag's in 16 bits, the file's or the random one; and every failure has its reason |
| `CommandLine.OnePort` | local/helpers.go:190-204 | a value gives one port only |
| `CommandLine.SettingsAreChosen` | local/network.go:1035-1083 | the host, the directories and the ports are the flags', else the config file's, else the defaults under the node directory and the data directory; otherwise the first thing that is wrong is reported |
| `CommandLine.CommandLineSays` | local/network.go:1085-1122 | a command line has a flag, other than the renamed ones, if and only if the node gives it or every node of such a network gets it; its value is the node's, printed, or the setting, the list of the beacons or the file it stands for |
| `CommandLine.RenamedFlagsSay` | local/network.go:1114-1134 | a current version gets the plugin directory and the tracked subnets as they are; an older one gets them under the old names, the directory's parent in place of the directory, and not at all if they are empty |
| `CommandLine.AddressesAreListed` | local/network.go:1092-1092 | the bootstrap addresses split at their commas into the addresses of the beacons in their order, each ending in a numeral that reads back as its port |
| `CommandLine.IdsAreListed` | local/network.go:1093-1093 | the bootstrap IDs split at their commas into the IDs of the beacons in their order |
| `CommandLine.FixedFlagsAre` | local/snapshot.go:29-51 | fixing fails if and only if a deprecated value is no string; otherwise non-empty values are under the new names, a directory as the plugins directory in it, and nothing else changes |
| `Paths.ParentThenJoin` | local/snapshot.go:46-46 | taking the parent directory and joining an element again gives a path back if and only if it is cleaned and ends in that element |
| `Paths.CleanIdempotent` | local/snapshot.go:46-46 | cleaning a cleaned path changes nothing |
| `Places.CleanMeans` | local/snapshot.go:46-46 | a cleaned path leads to where the path leads, seen from every directory, and nothing can be left out of it |
| `Places.JoinMeans` | local/snapshot.go:46-46 | joining leads to the element as seen from the directory |
| `Places.DirGoesUp` | local/network.go:1175-1175 | the directory of a path leads to where its part up to the last slash leads |
| `Places.TrimMeans` | local/network.go:1175-1175 | one slash at the end is cut off, and nothing else |
| `DefaultPorts.NewDefaultConfigNNodes` | local/network.go:387-428 | exactly n configurations, the i-th with the ports 9650+2i and 9651+2i as getPort reads them |
| `DefaultPorts.PortsFitIff` | local/helpers.go:190-204 | the 16-bit conversion leaves all ports alone if and only if there are at most 27943 nodes |
| `DefaultPorts.PortsDistinctIff` | local/helpers.go:190-204 | all ports in use differ if and only if there are at most 32768 nodes |
| `Strings.DecimalInjective` | local/network.go:997-1015 | different suffixes print as different names |
| `Strings.DecimalSays` | local/network.go:1085-1092 | a number prints as the numeral, without leading zeros, that reads back as the number |
| `Strings.SaidOneWay` | local/network.go:997-1015 | and no other numeral reads back as it |
| `Strings.LessMeans` | local/blockchain.go:526-527 | one string sorts before another if and only if it is a proper prefix or smaller at the first difference |
| `Strings.SplitMeans` | local/blockchain.go:512-515 | the first piece of a split goes up to the first separator, and the others are those of the rest |
| `Network.LeastFree` | local/network.go:997-1015 | the search for a name ends, at the least free suffix from the counter on |
| `Runs.GeneratedNameIsLeastFree` | local/network.go:997-1015 | a generated name is "node" and the least number at or above the counter whose name is free, the counter never falls, and no other entry changes |
| `Runs.FirstGeneratedName` | local/network.go:997-1015 | the first generated name of a new network is node1 |
| `Runs.AddNodeOnlyAdds` | local/network.go:499-648 | adding a node, successfully or not, overwrites no entry that is not paused |
| `Network.PrepareFacts` | local/network.go:499-632 | what is known of a node that is about to be launched, and the ways in which it may not be |
| `Network.AddNodeErrors` | local/network.go:499-648 | addNode fails before the process starts, or because the beacon is a duplicate |
| `LocalNetworks.LocalNetwork.SetNodeName` | local/network.go:997-1015 | the loop picks the least free name and refuses a name in use, but not that of a paused node |
| `LocalNetworks.LocalNetwork.FillDefaults` | local/network.go:499-535 | the node's maps are the network's overridden by its own, written in place |
| `LocalNetworks.LocalNetwork.AddNodeLocked` | local/network.go:499-648 | the object's new state and error are those of Network.AddNode |
| `LocalNetworks.LocalNetwork.RemoveNodeLocked` | local/network.go:800-822 | the object's new state and error are those of Network.RemoveNode |
| `LocalNetworks.LocalNetwork.PauseNodeLocked` | local/network.go:835-852 | the object's new state and error are those of Network.PauseNode |
| `LocalNetworks.LocalNetwork.ResumeNode` | local/network.go:869-890 | the object's new state and error are those of Network.ResumeNode |
| `LocalNetworks.LocalNetwork.RestartNode` | local/network.go:919-977 | the object's new state and error are those of Network.RestartNode |
| `LocalNetworks.LocalNetwork.StopNodes` | local/network.go:774-786 | in whatever order the nodes are removed, all are gone and an error is returned if and only if some unpaused process exits with another code than 0 |
| `LocalNetworks.LocalNetwork.Stop` | local/network.go:758-771 | the latch is closed, then all nodes are removed; a second call does nothing |
| `LocalNetworks.LocalNetwork.OrderNodes` | local/network.go:460-472 | the two passes put the beacons first and keep the order otherwise |
| `LocalNetworks.LocalNetwork.LoadConfig` | local/network.go:430-484 | nodes are added in that order until one fails, and then everything is stopped |
| `LocalNetworks.StopOneMore` | local/network.go:774-822 | removing one more node adds exactly its share to what was removed before |
| `NodeResults.AddNodeMeans` | local/network.go:499-648 | for every input: a node is added if and only if it has a key pair and a free name, its files can be written, its flags read and its ports had, and its process starts; then its entry, its flags, its files and its command line are what was given over the network's, and its pair joins the beacons unless it repeats one; otherwise nothing but maps and the counter changes, and the first obstacle is reported |
| `NodeResults.RemoveNodeMeans` | local/network.go:800-822 | the entry and its beacon are gone, and no other; a running process is stopped, and a code other than 0 reported |
| `NodeResults.PauseNodeMeans` | local/network.go:835-852 | the process is stopped, and the entry marked if and only if that exits with 0; a paused or missing node is refused |
| `NodeResults.StopAllMeans` | local/network.go:774-786 | no node and no beacon of a node is left, exactly the running processes are stopped, each with its own code, and a failure is reported if and only if one is not 0 |
| `NodeResults.ResumeNodeMeans` | local/network.go:869-890 | the recorded place is written into the node's flags, and its configuration is added again |
| `NodeResults.RestartNodeMeans` | local/network.go:919-977 | after a success the binary, the plugin directory, the tracked subnets and the files are those given, else those it had, its place is the same, and its process is told so under the names that its version knows |
| `NodeResults.RestartNodeFails` | local/network.go:919-977 | a restart starts a process if and only if there is such a node, its running process exits with 0, and a process can be started; otherwise it reports why |
| `NodeResults.LoadRefusesIff` | network/config.go:81-112 | a configuration is refused as invalid if and only if its genesis is not the network's, a node has no key pair or a bad config file, or it has nodes but no beacon |
| `NodeResults.LoadConfigMeans` | local/network.go:430-484 | a valid configuration makes its defaults the network's and its nodes are started one after the other; if one cannot be, its error is reported and all are stopped again |
| `NodeResults.StepMeans` | local/network.go:430-977 | what the other steps of a run do: a map, a load, the latch, stopping, a flag or a file of a node, an exit |
| `NodeResults.RunKeepsProcs` | local/network.go:499-977 | over every run no process is forgotten, renamed or told something else, and no exit code is rewritten |
| `Runs.OpKeepsInv` | local/network.go:499-977 | every operation, failing or not, keeps process ownership |
| `Runs.RunKeepsInv` | local/network.go:499-977 | every sequence of operations keeps process ownership |
| `Runs.NoOrphans` | local/network.go:499-977 | in every run each process that has not stopped belongs to exactly one entry, unpaused and stored under the process's own name, and a paused entry's process stopped with code 0 |
| `Runs.ShutDownLasts` | local/network.go:487-496 | once stopped, nodes stays empty and no process runs under every later operation, those without a stop check included; an installation cannot be in progress any more |
| `Runs.StopIsPermanent` | local/network.go:758-786 | with anything before, between and after the two steps of Stop, the network ends and stays empty, also if a node was restarted, or added by an installation in progress, in between |
| `BeaconSet.InstallNewAgreesIff` | local/network.go:637-646 | under an unused name the beacon set keeps agreeing if and only if the node is no beacon, or clashes with none, or repeats one entirely |
| `BeaconSet.InstallOverPausedAgreesIff` | local/network.go:637-646 | over a paused name it keeps agreeing if and only if the new beacon's pair is in the set already and the old beacon's pair is still wanted |
| `StaleBeacon.StaleBeaconRun` | local/network.go:637-646 | wherever ports are free there is a run, of a load, a pause and an addition under the same name, after which the beacon set does not agree |
| `BeaconSet.ResumeKeepsPlace` | local/network.go:869-890 | a resumed node keeps ID, ports and directories and its process is told them; on a failure it stays as it was |
| `BeaconSet.RestartKeepsPlace` | local/network.go:919-977 | a restarted node does too, no other entry changes, and a failed restart loses a running node but not a paused one |
| `BeaconSet.LoadAgrees` | local/network.go:430-484 | loading into an empty network makes the beacon set agree |
| `BeaconSet.FailedLoadLeavesNothing` | local/network.go:473-483 | when adding a node fails, both nodes and the beacon set end empty |
| `BeaconSet.OpAgrees` | local/network.go:430-977 | every orderly operation keeps the beacon set agreeing |
| `BeaconSet.BeaconsAgree` | local/network.go:430-977 | in every orderly run without reassignment the beacon set is exactly the ID and port pairs of the beacon nodes, paused ones included |
| `BeaconSet.OpIdentified` | local/network.go:499-977 | every operation keeps each entry's name, and its ID the one of its certificate |
| `BeaconSet.RunIdentified` | local/network.go:499-977 | so does every run |
| `Startup.StartOrderIsStable` | local/network.go:460-472 | the order is a permutation, each configuration stands at its rank among its own kind, beacons before the others |
| `Startup.LoadStartsBeaconsFirst` | local/network.go:430-484 | the k-th started process has the k-th identity and is told exactly the beacons before it, which are all of them from the last beacon on, unless its node's flags name others |
| `Startup.NoneBootstrapsFromItself` | local/network.go:1085-1094 | with distinct identities no process is given itself as a beacon |
| `Defaults.OpKeepsMerged` | local/network.go:499-535 | no operation takes the network's default flags and files out of a node |
| `Defaults.RunKeepsMerged` | local/network.go:499-535 | neither does any run that loads configurations into empty networks |
| `TrackedSubnets.TrackedAfterMeans` | local/blockchain.go:511-529 | the new flag splits into the strictly sorted list of exactly the old and the added subnets; it fails to if and only if the flag was only commas and nothing is added |
| `TrackedSubnets.TrackedSetMeans` | local/blockchain.go:511-516 | the set that is built from a flag has exactly the pieces between its commas, and none if it is empty |
| `TrackedSubnets.TrackedAfterIdempotent` | local/blockchain.go:511-529 | adding the same subnets again changes nothing |
| `TrackedSubnets.TrackFor` | local/blockchain.go:511-529 | the loops compute that list, and whether the node takes part |
| `TrackedSubnets.UpdateNode` | local/blockchain.go:493-544 | one round writes one node's list, restarts it exactly if it must be, and leaves the others' lists and processes alone |
| `TrackedSubnets.RestartNodes` | local/blockchain.go:484-554 | after a success, with unshared maps, each node's flag was a string if there and is now its old list with its new subnets, and an unpaused participant runs a process that was told so; a node runs a new process if and only if it is not paused and takes part or is listed; and the nodes are healthy |
| `TrackedSubnets.DoneListMeans` | local/blockchain.go:493-549 | that flag splits into a strictly sorted list whose set is the old one plus the new subnets, unless it was only commas and nothing is added |
| `TrackedSubnets.SecondRestartKeepsLists` | local/blockchain.go:484-554 | a second run for the same subnets leaves every list as it is |
| `TrackedSubnets.ResumeUsesTracked` | local/network.go:869-890 | a paused node whose list changed is started with the new list when it is resumed |
| `Chains.CollectSpecs` | local/blockchain.go:188-201 | the k-th blockchain without a subnet contributes the k-th spec |
| `Chains.MissingCounts` | local/blockchain.go:188-201 | k is the number of blockchains without a subnet before it |
| `Chains.FillParticipants` | local/blockchain.go:203-210 | every spec keeps its config, and its participants are those given, or all nodes if none are |
| `Chains.SpecOfMeans` | local/blockchain.go:188-210 | a blockchain without a spec gets all nodes and no config, one with a spec that names no one gets all nodes and its config |
| `Chains.AssignSubnets` | local/blockchain.go:243-251 | the index into the created subnets never runs out, the k-th blockchain without a subnet gets the k-th created one, the others are unchanged |
| `Chains.NewParticipants` | local/blockchain.go:945-955 | with distinct IDs the lookup finds the participants of the new subnet's own spec |
| `Chains.ParticipantsOfNewSubnet` | local/blockchain.go:188-251 | collection, assignment and lookup together give a blockchain the participants its spec names, or all nodes if it names none |
| `Chains.NamesWithId` | local/blockchain.go:411-417 | the inner loop finds exactly the nodes with an ID, once each |
| `Chains.CollectNames` | local/blockchain.go:410-417 | the loops find exactly the nodes behind the validators, as many as there are matches |
| `Chains.ValidatorNames` | local/blockchain.go:394-422 | for all inputs the length check passes if and only if there are as many matches as validators, and the names are then exactly those of the nodes behind them; with distinct IDs it passes if and only if every validator is a node, and the i-th name is the i-th validator's |
| `Chains.CheckPassesIff` | local/blockchain.go:418-420 | the check passes if and only if the surplus of nodes that share an ID equals the number of absent validators |
| `Chains.NoneAbsentIff` | local/blockchain.go:418-420 | none is absent if and only if every validator is the ID of a node |
| `Chains.DistinctHasNoSurplus` | local/blockchain.go:418-420 | with distinct IDs there is no surplus |
| `Chains.SharedIdFoolsTheCheck` | server/network.go:405-415 | with two nodes of one ID the lookup succeeds although a validator is missing |
| `Validators.AddPrimaryValidators` | local/blockchain.go:600-667 | only nodes that do not validate the primary network yet are added, and after a success every node validates it or was asked to |
| `Validators.WaitPrimaryValidators` | local/blockchain.go:772-806 | a nil result means that every node validates the primary network; if the context ends, some node did not in the last view |
| `Validators.AddSubnetValidators` | local/blockchain.go:702-769 | only participants that do not validate their subnet yet are added, until the end of their primary validation; if all nodes are primary validators no end is the zero time, and if the participants are present none is found missing |
| `Validators.AskedLater` | local/blockchain.go:702-769 | who validates or was asked to still does later |
| `Validators.WaitSubnetValidators` | local/blockchain.go:809-855 | a nil result means that every participant validates its subnet from then on |
| `Validators.ParticipantsReady` | local/blockchain.go:818-841 | a subnet is ready if and only if all its participants validate it |
| `Installation.AddNewNode` | local/blockchain.go:212-223 | a new participant is no beacon, has nothing but the network's settings and a Flags map of its own, and nothing else changes |
| `Installation.AddMissing` | local/blockchain.go:212-223 | after a success every named participant is a node |
| `Installation.SetSubnetConfigFiles` | local/blockchain.go:994-1012 | every participant gets the config of its subnets and no other file changes |
| `Installation.SubnetFilesAt` | local/blockchain.go:994-1012 | with distinct subnets a node's file for a subnet is that subnet's config if it takes part, and what it was otherwise |
| `Installation.SetBlockchainConfigFiles` | local/blockchain.go:932-992 | each blockchain's participants, found as below, get its config and its upgrade, no other file changes, and the nodes to restart are theirs |
| `Installation.ChainFilesAt` | local/blockchain.go:964-989 | with distinct blockchains a participant's files are the blockchain's config, its own one if there is one, and its upgrade; everyone else's are as they were |
| `Installation.ToRestartHas` | local/blockchain.go:964-989 | exactly the participants of blockchains that come with files are to be restarted |
| `Installation.FindParticipants` | local/blockchain.go:944-963 | the participants are those of the spec if the subnet is new, and otherwise exactly the nodes behind its validators in some view |
| `Installation.CreateSubnets` | local/blockchain.go:669-697 | one new subnet for each spec, in order |
| `Installation.SetUpSubnets` | local/blockchain.go:344-381 | on every path into addSubnetValidators the participants are nodes and all nodes are primary validators, so no participant is found missing and no end is the zero time |
| `Installation.InstallSubnets` | local/blockchain.go:317-391 | no named participant is ever found missing; after a success everyone whom the i-th given spec names, or every earlier node if it names no one, validates the i-th subnet from then on and has its given config, only those were asked to, those that ran before run a new process, and every node tracks exactly its old subnets and the new ones it takes part in |
| `Installation.PlanChains` | local/blockchain.go:188-270 | up to the restart: no named participant is found missing, every blockchain has its subnet, and every participant has the files of its subnets and blockchains |
| `Installation.InstallCustomChains` | local/blockchain.go:154-315 | each blockchain is created in the subnet it names or in the next new one; everyone whom its spec names, or every earlier node, validates the new subnet from then on, has its config and the files of the blockchain, and runs a new process, and only those were asked to; the files of a blockchain in an old subnet are on all nodes that validated it in some view; every node tracks exactly its old subnets and the new ones it takes part in; and with nothing new and no files nothing is restarted or written |
| `SnapshotFiles.CopyConfigs` | local/snapshot.go:113-123 | every node config is copied with a clone of its Flags map, also where nodes share one |
| `SnapshotFiles.PinPorts` | local/snapshot.go:124-128 | each copy gets its own node's ports, and no node's own map is touched |
| `SnapshotFiles.DropLogs` | local/snapshot.go:129-143 | the log directory leaves the copies and the config files |
| `SnapshotFiles.SaveSnapshot` | local/snapshot.go:98-187 | it fails exactly when stopped, unnamed, taken, not stopped cleanly or not written, and says which; otherwise the file is the network as it was, with each node's own ports, and the network is stopped |
| `SnapshotFiles.FixFlags` | local/snapshot.go:29-51 | the in-place fix is FixDeprecated |
| `SnapshotFiles.SetFlags` | local/snapshot.go:231-257 | given flags, database directory and plugin directory are written in this order into every node's flags |
| `SnapshotFiles.LoadSnapshot` | local/snapshot.go:190-280 | without a readable snapshot whose flags can be fixed and whose databases can be copied nothing changes, and it is said why; otherwise the loaded configuration is started |
| `Snapshot.AddAllRestores` | local/network.go:473-483 | starting saved nodes one after the other restores each, in its own map, and nothing else |
| `Snapshot.RoundTrip` | local/snapshot.go:98-280 | after saving and loading, the nodes have the same names, IDs, certificates, beacon marks, files and ports, and the flags they had but for the log and the db directory |
| `Snapshot.RoundTripSucceeds` | local/snapshot.go:190-280 | with a beacon, distinct IDs and ports, well-typed flags and free ports, the snapshot loads |
| `Snapshot.NoBeaconNoReload` | network/config.go:81-112 | a saved network that has nodes but no beacon is refused as an invalid configuration |
| `SnapshotResults.SnapshotMeans` | local/snapshot.go:98-187 | key by key: a snapshot has every node once, with its own flags and current ports, its files, its identity and its config file without the log directory, and the network's settings |
| `SnapshotResults.LoadMeans` | local/snapshot.go:190-280 | with any options: a node is loaded with the flags and files given over its saved ones, the new database directory, the given plugin directory and binary, and a Flags map of its own |
| `Defaults.RoundTripIsExact` | local/snapshot.go:98-280 | key by key, a node has its own flags back, numbers as JSON numbers, with its current ports and the new database directory, its own files, its config file without the log directory, its identity and its binary |
| `Defaults.RunRoundTrip` | local/snapshot.go:98-280 | for the network after any run: saved and loaded again, every node is back with its identity and ports and exactly its own flags and files |
| `InfoCache.RunKeepsSafe` | server/server.go:746-918 | every interleaving of the goroutine, a request and exiting processes keeps the infos of the request right, given a calm goroutine |
| `InfoCache.UnlockedAgreesIff` | server/server.go:864-918 | pausing and resuming: once the operation is done, the cache agrees at the end of every run if and only if the goroutine has finished, cannot become healthy, or has nothing wrong left to write |
| `InfoCache.LockedAgreesIff` | server/server.go:746-862 | adding, removing and restarting: it agrees at the end of every run if and only if the goroutine has taken lc.lock before, cannot become healthy, or there are no nodes |
| `InfoCache.TakingAgreesIff` | server/server.go:564-589 | a request that has rebuilt the infos under lc.lock and has yet to take them: the same condition as for pausing |
| `InfoCache.QuietRequestAgrees` | server/server.go:746-918 | seen from before the call: with a finished goroutine, or one that has taken lc.lock if the request takes it too, the cache agrees whatever happens |
| `InfoCache.PauseCanDisagree` | server/server.go:1062-1065 | a pause while the goroutine has yet to begin can succeed and leave names or infos missing |
| `InfoCache.HealthyMeans` | local/network.go:680-712 | the network is healthy if and only if no unpaused node has an exited process or fails to answer |
| `InfoCache.InfoDescribes` | server/network.go:480-515 | an info has the name, ID, address, directories, binary and mark of its node, and its tracked subnets as its config file or else its flags say; it fails if and only if they are no string |
| `InfoResults.OperationMeans` | server/server.go:746-918 | what the operation of a request does to the network and reports, for all five kinds |
| `InfoResults.ListedFollow` | server/network.go:480-515 | objects that the goroutine has listed follow the network as long as they are its entries, and stay as they were afterwards |
| `InfoResults.LocksExclude` | server/network.go:431-477 | in every run, the goroutine and a request that rebuilds under lc.lock exclude each other |
| `InfoResults.WaitHoldsNetwork` | local/network.go:651-656 | while the goroutine waits for healthy nodes, no operation changes an entry, a flag or a beacon |
| `InfoResults.GoroutineMeans` | server/network.go:431-515 | over every run of the goroutine by itself: it finishes without an error only after the nodes answered as healthy, and then every node is described as it is and the subnets are those answered; every error has its cause; and if an unpaused node answers as unhealthy it ends as unhealthy |
| `InfoResults.WaitMeans` | server/network.go:443-446 | at any point, a wait ends the goroutine as unhealthy if and only if an unpaused node has exited or does not answer |
| `InfoResults.GoroutineFinishes` | server/network.go:431-515 | with healthy nodes and readable flags it can finish |
| `InfoResults.RequestMeans` | server/network.go:480-515 | once its operation is done, a request fails only if some tracked flag is no string, and ends only if all are |
| `Servers.LaunchFacts` | server/network.go:187-207 | a network that does not come up leaves no process running |
| `Servers.GroundIsEmpty` | local/network.go:302-345 | a network is made without nodes, beacons, processes and defaults, and not stopped |
| `Servers.WorkKeepsOpen` | local/network.go:487-977 | none of the operations a server makes on a running network closes its stop latch |
| `Servers.WorkedMeans` | server/network.go:212-292 | if all of an installation's work can be done, the network is what that run makes of it |
| `Servers.EndedFacts` | server/network.go:518-533 | a network that was stopped has no nodes and no process running |
| `Servers.CacheMeans` | server/server.go:786-788 | a cache that agrees names exactly the nodes, and has for each its name, ID, address, directories, binary, mark and tracked subnets |
| `Servers.Server.StopAndRemoveNetwork` | server/server.go:624-645 | the send never blocks, at most one error is queued, the flags are lowered and the network is stopped |
| `Servers.Server.UpdateNodeInfo` | server/network.go:480-515 | in one stretch, the infos are exactly those of the nodes, and it fails if and only if the network is stopped or some tracked flag is no string |
| `Servers.Server.UpdateClusterInfo` | server/server.go:381-400 | the cached names are the sorted names of the infos, and the flags are raised only with a network |
| `Servers.Server.AwaitHealthy` | server/network.go:441-467 | it fails as unhealthy if and only if some unpaused node has an exited process or the answer is no, else for a tracked flag that is no string, else with an index out of range if there are no nodes, else if the platform chain does not answer; after a success the infos are those of the nodes |
| `Servers.Server.Start` | server/server.go:254-378 | a second start is refused; otherwise every error is that of the launch or of the installation, and leaves no network; after a success the network is what these made, and the cache agrees |
| `Servers.Server.LoadSnapshot` | server/server.go:1008-1083 | the same for a launch alone, with a goroutine left that has yet to begin and the cluster not yet healthy |
| `Servers.Server.CreateBlockchains` | server/server.go:453-514 | an unknown subnet changes nothing; nothing is installed before the nodes are healthy; a failure of the installation gives the network up, a success goes on to take the infos, calm exactly if the goroutine is |
| `Servers.Server.CreateAndUpdate` | server/server.go:537-549 | a failure leaves no network and exactly its error queued |
| `Servers.Server.Health` | server/server.go:564-589 | it reports what waiting for healthy nodes does; a success has rebuilt the infos and goes on to take them |
| `Servers.Server.WaitForHealthyRound` | server/server.go:406-451 | it ends without an error only if the cluster is healthy and there is a network, takes at most the one queued error, and reports that one, the end of its context or the missing network |
| `Servers.Server.SaveSnapshot` | server/server.go:1085-1104 | the network is given up exactly if it was saved, and otherwise the name, the exit of a process or the writing is at fault |
| `Servers.Server.AddNode` | server/server.go:746-795 | it begins a request that adds a node with a flag map of its own and rebuilds under lc.lock |
| `Servers.Server.RemoveNode` | server/server.go:797-824 | it begins a request that removes a node and rebuilds under lc.lock |
| `Servers.Server.RestartNode` | server/server.go:826-862 | it begins a request that restarts a node and rebuilds under lc.lock |
| `Servers.Server.PauseNode` | server/server.go:864-890 | it begins a request that pauses a node and rebuilds without lc.lock |
| `Servers.Server.ResumeNode` | server/server.go:892-918 | it begins a request that resumes a node and rebuilds without lc.lock |
| `Servers.Server.LocksMean` | server/network.go:431-445 | a goroutine keeps requests that take lc.lock out from its wait to its end, and operations on the network while it waits |
| `Servers.Server.RequestOperates` | server/server.go:778-780 | the network and the objects listed by the goroutine change as the operation says, with its own error; a failure ends the request |
| `Servers.Server.RequestRebuilds` | server/network.go:470-515 | one step of the rebuilding, exactly as in InfoCache |
| `Servers.Server.RequestTakes` | server/server.go:786-788 | names and infos are taken one after the other, exactly the flags and subnets that the request stands for are set, and given a calm goroutine the cache then agrees with the network |
| `Servers.Server.GoroutineMoves` | server/network.go:431-515 | one step of the goroutine, at any point of a request, exactly as in InfoCache; a wait ends it as unhealthy if and only if an unpaused node has exited or does not answer |
| `Servers.Server.GoroutineCompletes` | server/server.go:1066-1075 | an error gives up the network and is queued, a success takes its names, infos and subnets and marks it as healthy |
| `Servers.Server.OrphanCompletes` | server/server.go:1066-1075 | however late it comes, the server stays safe and no network is revived; an error gives up whatever network is held and is queued, a success takes that network's infos |
| `Servers.Server.ProcessExits` | local/node_process.go:121-131 | exactly the one process has exited, with the given code unless it had one before |
| `Servers.Server.Serve` | server/server.go:82-106 | over any sequence of requests and their steps, goroutine steps and process exits: a network has cluster info, a raised flag has a network, at most one error is queued, the network held is there and not stopped, and every other network ever made has no process running |

## Left out

- Servers.Server.LoadSnapshot: that the goroutine reads the network of the server without the lock is not modelled; it waits for the network it was started for.
- Servers.Server.UpdateClusterInfo: where a goroutine completes, it is one stretch, so that another goroutine cannot rebuild the infos in between; nothing is claimed about the infos there.
- InfoCache.RunKeepsSafe: every access to a map of infos is one step; that Go may crash on concurrent accesses to one map is not modelled.
- Snapshot.RoundTrip: overrides given for a load are modelled by `SnapshotFiles.LoadSnapshot` but not part of the round trip.
- gRPC, the gateway, the command line client, logging, colours and mocks: plumbing.
- The contents of files, the copying of directories, key generation, spawning and killing of processes: their outcomes are parameters.
- Wallets and the inside of the platform chain: validators only ever join, and new IDs are parameters.
- The parsing of versions: `older` says whether a node's version is before another.
- Contexts and timeouts: waiting ends after a number of rounds that is a parameter.
- The 64-bit wrap-around of the name counter.
- Flag values that are themselves lists or objects, and how a float is printed.
- A port given as a float outside the range of 16 bits is taken modulo 65536 after truncation; Go leaves it open.
- Chain, upgrade and subnet config files are values of a node; that their maps may be shared between nodes is not modelled.
- The order of the beacon set after a removal: it stays the insertion order here.
- The signing key of a node: only whether it could be made.
- The time between choosing a free port and using it.
- loadConfig on a network that was stopped: the source calls it only while a network is made.
- How createConfig of server/network.go puts the configuration of a new network together, and the custom chain infos and subnet participants that updateSubnetInfo collects: only the subnets it finds are modelled.
- `AttachPeer`, `SendOutboundMessage`, `URIs`, `Status`, `StreamStatus`, aliases of blockchains and the listing and removal of snapshots: no state of the cluster depends on them.
- The copy of the cluster info made for a response: only the cached one is modelled.
