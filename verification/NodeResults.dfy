/** What the operations on nodes leave behind: the entry, its process and its command line,
    in terms of what was asked for alone (local/network.go:499-977). */
module NodeResults {
  import opened Common
  import opened Strings
  import opened Paths
  import opened Flags
  import opened CommandLine
  import opened Network
  import opened Runs
  import opened BeaconSet
  import LocalNetworks

  // ---------- adding ----------

  /** The flags a node is started with: its own, and the network's where it has none. */
  ghost predicate GivenFlags(s: State, c: NodeConfig, given: FlagMap)
    requires Allocated(s, c)
  {
    var own := if c.flags.Some? then s.store[c.flags.value] else map[];
    forall k :: (k in given <==> k in own || k in s.netFlags)
                && (k in own ==> k in given && given[k] == own[k])
                && (k in s.netFlags && k !in own ==> k in given && given[k] == s.netFlags[k])
  }

  /** Config files: those of the node over those of the network. */
  ghost predicate GivenFiles(network: ConfigFiles, own: ConfigFiles, given: ConfigFiles) {
    forall f :: (f in given <==> f in own || f in network)
                && (f in own ==> f in given && given[f] == own[f])
                && (f in network && f !in own ==> f in given && given[f] == network[f])
  }

  /** The entry of a node that was added. */
  ghost predicate EntryOf(s: State, c: NodeConfig, e: AddEnv, given: FlagMap, node: Node)
    requires Allocated(s, c)
  {
    var file := if c.configFile.Some? then c.configFile.value else map[];
    && (c.name != "" ==> node.cfg.name == c.name) && node.cfg.isBeacon == c.isBeacon && node.cfg.configFile == c.configFile
    && node.cfg.cert == (if c.cert != "" then c.cert else e.newCert) && s.site.idOf(node.cfg.cert) == Some(node.id)
    && node.cfg.binaryPath == (if c.binaryPath != "" then c.binaryPath else s.binaryPath)
    && node.cfg.flags == Some(if c.flags.Some? then c.flags.value else |s.store|)
    && GivenFiles(s.files, c.files, node.cfg.files)
    && !node.paused
    && Chosen(given, file, HttpHost, "", node.httpHost)
    && Chosen(given, file, DataDir, JoinPath(s.rootDir, node.cfg.name), node.dataDir)
    && Chosen(given, file, PluginDir, "", node.pluginDir)
    && Chosen(given, file, DbDir, JoinPath(node.dataDir, "db"), node.dbDir)
    && Chosen(given, file, LogDir, JoinPath(node.dataDir, "logs"), node.logsDir)
    && PortChosen(given, file, HttpPort, s.site.reassign, e.args.api, node.apiPort)
    && PortChosen(given, file, StakingPort, s.site.reassign, e.args.p2p, node.p2pPort)
  }

  /** What the process of the entry is told about a flag. */
  ghost predicate ToldAbout(s: State, given: FlagMap, node: Node, args: ArgMap, k: Key) {
    var own := k in given && k != HttpPort && k != StakingPort;
    var r := Resolved(args, node.apiPort, node.p2pPort, node.dataDir, node.dbDir, node.logsDir, node.pluginDir, node.httpHost);
    && (k in args <==> own || Expected(s.site.networkId, node.cfg.configFile.Some?, k))
    && (k in args ==>
          if own then Printed(s.site.floats, given[k], args[k]) else ExpectedValue(s.site, s.beacons, r, k, args[k]))
  }

  const RENAMED_KEYS := {BuildDir, PluginDir, WhitelistedSubnets, TrackSubnets}

  /** When a node can be added: it gets a key pair and a name, its directory and files can be
      written, its flags can be read, its ports are free, and its process starts. */
  ghost predicate Addable(s: State, c: NodeConfig, e: AddEnv, given: FlagMap) {
    && (c.cert != "" || e.newCert != "") && e.signingKeyOk
    && (c.name != "" && c.name in s.nodes ==> s.nodes[c.name].paused)
    && e.dirOk && (c.configFile.Some? ==> e.configParses) && e.versionKnown
    && Buildable(s.site, given, if c.configFile.Some? then c.configFile.value else map[], e.args)
    && s.site.idOf(if c.cert != "" then c.cert else e.newCert).Some?
    && e.launches
  }

  /** Why it cannot be: the first of these that is in the way. */
  ghost predicate NotAddedBecause(s: State, c: NodeConfig, e: AddEnv, given: FlagMap, err: Error) {
    var file := if c.configFile.Some? then c.configFile.value else map[];
    if (c.cert == "" && e.newCert == "") || !e.signingKeyOk then err == KeyGenerationFailed
    else if c.name != "" && c.name in s.nodes && !s.nodes[c.name].paused then err == RepeatedNodeName
    else if !e.dirOk then err == DirectoryFailed
    else if c.configFile.Some? && !e.configParses then err == BadConfigFile
    else if !e.versionKnown then err == VersionUnknown
    else if !Buildable(s.site, given, file, e.args) then NotBuiltBecause(s.site, given, file, e.args, err)
    else if s.site.idOf(if c.cert != "" then c.cert else e.newCert).None? then err == BadIdentity
    else err == LaunchFailed
  }

  /** The counter for names moves to the number of the least free one if a name is needed. */
  ghost predicate CounterMoved(s: State, c: NodeConfig, e: AddEnv, next: nat) {
    if c.name != "" || (c.cert == "" && e.newCert == "") || !e.signingKeyOk then next == s.nextSuffix
    else
      && next >= s.nextSuffix && (forall x :: Generated(x, next) ==> x !in s.nodes)
      && (forall m: nat, x :: s.nextSuffix <= m < next && Generated(x, m) ==> x in s.nodes)
  }

  lemma FlagsAreGiven(s: State, c: NodeConfig)
    requires Allocated(s, c)
    ensures GivenFlags(s, c, StoreWithDefaults(s, c)[FlagsAddress(s, c)])
    ensures forall a :: 0 <= a < |s.store| && (c.flags.Some? ==> a != c.flags.value) ==> StoreWithDefaults(s, c)[a] == s.store[a]
  {
  }

  lemma FilesAreGiven(s: State, c: NodeConfig)
    ensures GivenFiles(s.files, c.files, WithDefaults(s, c).files)
  {
  }

  lemma NodeIsEntry(s: State, c: NodeConfig, e: AddEnv, given: FlagMap, s': State, x: Ready, pid: nat)
    requires Allocated(s, c) && ReadyFor(s, c, e, s', x) && given == s'.store[FlagsAddress(s, c)]
    requires x.cfg.cert == if c.cert != "" then c.cert else e.newCert
    ensures EntryOf(s, c, e, given, NodeOf(x, pid))
    ensures forall k :: k !in RENAMED_KEYS ==> ToldAbout(s, given, NodeOf(x, pid), x.r.args, k)
    ensures RenamedSaid(s.site.floats, e.args.older("v0.4.1"), given, x.r.args)
  {
    hide BuildArgs, Chosen, PortChosen, Printed, Expected, ExpectedValue, JoinPath, GivenFiles, RenamedSaid;
    FilesAreGiven(s, c);
    var file := if c.configFile.Some? then c.configFile.value else map[];
    var dir := JoinPath(s.rootDir, x.cfg.name);
    CommandLineSays(s.site, s.beacons, given, c.configFile, dir, e.args, NetworkName);
    RenamedFlagsSay(s.site, s.beacons, given, c.configFile, dir, e.args);
    forall k | k !in RENAMED_KEYS ensures ToldAbout(s, given, NodeOf(x, pid), x.r.args, k) {
      CommandLineSays(s.site, s.beacons, given, c.configFile, dir, e.args, k);
      assert x.r == Resolved(x.r.args, x.r.apiPort, x.r.p2pPort, x.r.dataDir, x.r.dbDir, x.r.logsDir, x.r.pluginDir, x.r.httpHost);
    }
  }

  lemma PrepareCert(s: State, c: NodeConfig, e: AddEnv)
    requires Allocated(s, c) && Prepare(s, c, e).ready.Ok?
    ensures Prepare(s, c, e).ready.value.cfg.cert == if c.cert != "" then c.cert else e.newCert
  {
    hide BuildArgs, StoreWithDefaults;
  }

  lemma ResolvedIff(s: State, c: NodeConfig, e: AddEnv)
    requires c.flags.Some? && c.flags.value < |s.store|
    ensures Resolve(s, c, e).Ok? <==>
            && e.dirOk && (c.configFile.Some? ==> e.configParses) && e.versionKnown
            && Buildable(s.site, s.store[c.flags.value], if c.configFile.Some? then c.configFile.value else map[], e.args)
            && s.site.idOf(c.cert).Some? && e.launches
  {
    hide BuildArgs, Buildable, JoinPath;
    BuiltIff(s.site, s.beacons, s.store[c.flags.value], c.configFile, JoinPath(s.rootDir, c.name), e.args);
  }

  lemma ResolveFails(s: State, c: NodeConfig, e: AddEnv, s0: State, c0: NodeConfig, given: FlagMap)
    requires c.flags.Some? && c.flags.value < |s.store| && given == s.store[c.flags.value] && Resolve(s, c, e).Err?
    requires s.site == s0.site && c.configFile == c0.configFile && c.cert == (if c0.cert != "" then c0.cert else e.newCert)
    requires !((c0.cert == "" && e.newCert == "") || !e.signingKeyOk)
    requires !(c0.name != "" && c0.name in s0.nodes && !s0.nodes[c0.name].paused)
    ensures NotAddedBecause(s0, c0, e, given, Resolve(s, c, e).error)
  {
    hide Buildable, NotBuiltBecause, JoinPath, Settings, Layers, ForVersion;
    SettingsAreChosen(s.site, given, if c.configFile.Some? then c.configFile.value else map[], JoinPath(s.rootDir, c.name), e.args);
    BuiltIff(s.site, s.beacons, given, c.configFile, JoinPath(s.rootDir, c.name), e.args);
  }

  lemma PrepareFails(s: State, c: NodeConfig, e: AddEnv)
    requires Allocated(s, c) && Prepare(s, c, e).ready.Err?
    ensures NotAddedBecause(s, c, e, StoreWithDefaults(s, c)[FlagsAddress(s, c)], Prepare(s, c, e).ready.error)
  {
    hide Resolve, Buildable, StoreWithDefaults, NotBuiltBecause;
    var s1 := s.(store := StoreWithDefaults(s, c));
    var c1 := WithDefaults(s, c);
    var c2 := c1.(cert := if c1.cert == "" then e.newCert else c1.cert);
    var suffix := LeastFree(s1.nodes.Keys, s1.nextSuffix);
    var s2 := if c2.name == "" then s1.(nextSuffix := suffix) else s1;
    var c3 := if c2.name == "" then c2.(name := NodeName(suffix)) else c2;
    assert c2.name == "" ==> c3.name !in s2.nodes.Keys;
    if !((c.cert == "" && e.newCert == "") || !e.signingKeyOk) && !(c.name != "" && c.name in s.nodes && !s.nodes[c.name].paused) {
      ResolveFails(s2, c3, e, s, c, StoreWithDefaults(s, c)[FlagsAddress(s, c)]);
    }
  }

  lemma CounterMoves(s: State, c: NodeConfig, e: AddEnv)
    requires Allocated(s, c)
    ensures CounterMoved(s, c, e, Prepare(s, c, e).s.nextSuffix)
  {
    hide Resolve, StoreWithDefaults, NodeName, Generated;
    forall x, m: nat | Generated(x, m) ensures x == NodeName(m) { GeneratedIs(x, m); }
  }

  /** addNode prepares a node exactly if it can be added. */
  lemma PreparedIff(s: State, c: NodeConfig, e: AddEnv)
    requires Allocated(s, c)
    ensures Prepare(s, c, e).ready.Ok? <==> Addable(s, c, e, StoreWithDefaults(s, c)[FlagsAddress(s, c)])
  {
    hide Resolve, Buildable, StoreWithDefaults;
    var s1 := s.(store := StoreWithDefaults(s, c));
    var c1 := WithDefaults(s, c);
    var c2 := c1.(cert := if c1.cert == "" then e.newCert else c1.cert);
    var suffix := LeastFree(s1.nodes.Keys, s1.nextSuffix);
    var s2 := if c2.name == "" then s1.(nextSuffix := suffix) else s1;
    var c3 := if c2.name == "" then c2.(name := NodeName(suffix)) else c2;
    assert c2.name == "" ==> c3.name !in s2.nodes.Keys;
    ResolvedIff(s2, c3, e);
  }

  lemma BuiltIff(site: Site, beacons: seq<Beacon>, flags: FlagMap, file: Option<FlagMap>, nodeDir: string, e: ArgsEnv)
    ensures BuildArgs(site, beacons, flags, file, nodeDir, e).Ok?
            <==> Buildable(site, flags, if file.Some? then file.value else map[], e)
  {
    hide Settings, Layers, ForVersion, Buildable;
    SettingsAreChosen(site, flags, if file.Some? then file.value else map[], nodeDir, e);
  }

  /** The beacon repeats the ID or the address of another. */
  predicate Repeats(beacons: seq<Beacon>, id: string, port: Port) {
    exists i :: 0 <= i < |beacons| && (beacons[i].id == id || beacons[i].port == port)
  }

  /** What addNode does, for every input. */
  ghost predicate Added(s: State, c: NodeConfig, e: AddEnv, o: Outcome, given: FlagMap)
    requires Allocated(s, c)
  {
    && GivenFlags(s, c, given)
    && |o.s.store| == |s.store| + (if c.flags.Some? then 0 else 1)
    && o.s.store[if c.flags.Some? then c.flags.value else |s.store|] == given
    && (forall a :: 0 <= a < |s.store| && (c.flags.Some? ==> a != c.flags.value) ==> o.s.store[a] == s.store[a])
    && o.s == s.(nodes := o.s.nodes, beacons := o.s.beacons, nextSuffix := o.s.nextSuffix, procs := o.s.procs, store := o.s.store)
    && CounterMoved(s, c, e, o.s.nextSuffix)
    && if Addable(s, c, e, given) then
         && |o.s.procs| == |s.procs| + 1 && o.s.procs[..|s.procs|] == s.procs
         && (var p := o.s.procs[|s.procs|];
             && p.exit.None? && p.name in o.s.nodes && o.s.nodes == s.nodes[p.name := o.s.nodes[p.name]]
             && (var node := o.s.nodes[p.name];
                 && node.cfg.name == p.name && node.id == p.id && node.pid == |s.procs|
                 && EntryOf(s, c, e, given, node)
                 && (forall k :: k !in RENAMED_KEYS ==> ToldAbout(s, given, node, p.args, k))
                 && RenamedSaid(s.site.floats, e.args.older("v0.4.1"), given, p.args)
                 && (if c.isBeacon && p.name !in s.nodes then
                       if Repeats(s.beacons, node.id, node.p2pPort) then o.err == Some(DuplicateBeacon) && o.s.beacons == s.beacons
                       else o.err.None? && o.s.beacons == s.beacons + [Beacon(node.id, node.p2pPort)]
                     else o.err.None? && o.s.beacons == s.beacons)))
       else
         && o.err.Some? && NotAddedBecause(s, c, e, given, o.err.value)
         && o.s.nodes == s.nodes && o.s.beacons == s.beacons && o.s.procs == s.procs
  }

  lemma AddNodeMeans(s: State, c: NodeConfig, e: AddEnv)
    requires Allocated(s, c)
    ensures exists given :: Added(s, c, e, AddNode(s, c, e), given)
  {
    hide Prepare, BuildArgs, StoreWithDefaults, Addable, EntryOf, ToldAbout, GivenFlags, Clashes, Repeats, RenamedSaid, NotAddedBecause,
         CounterMoved;
    PrepareFacts(s, c, e);
    CounterMoves(s, c, e);
    PreparedIff(s, c, e);
    FlagsAreGiven(s, c);
    var given := StoreWithDefaults(s, c)[FlagsAddress(s, c)];
    var p := Prepare(s, c, e);
    if p.ready.Ok? {
      PrepareCert(s, c, e);
      NodeIsEntry(s, c, e, given, p.s, p.ready.value, |s.procs|);
      ClashIsRepeat(s.beacons, p.ready.value.id, p.ready.value.r.p2pPort);
      InstalledIs(s, c, e, given, p.s, p.ready.value);
    } else {
      PrepareFails(s, c, e);
    }
    assert Added(s, c, e, AddNode(s, c, e), given);
  }

  lemma ClashIsRepeat(beacons: seq<Beacon>, id: string, port: Port)
    ensures Clashes(beacons, Beacon(id, port)) <==> Repeats(beacons, id, port)
  {
  }

  lemma InstalledIs(s: State, c: NodeConfig, e: AddEnv, given: FlagMap, s': State, x: Ready)
    requires Allocated(s, c) && s' == s.(store := s'.store, nextSuffix := s'.nextSuffix) && ReadyFor(s, c, e, s', x)
    requires EntryOf(s, c, e, given, NodeOf(x, |s.procs|))
    requires forall k :: k !in RENAMED_KEYS ==> ToldAbout(s, given, NodeOf(x, |s.procs|), x.r.args, k)
    requires RenamedSaid(s.site.floats, e.args.older("v0.4.1"), given, x.r.args)
    requires Clashes(s.beacons, Beacon(x.id, x.r.p2pPort)) <==> Repeats(s.beacons, x.id, x.r.p2pPort)
    ensures var o := Install(s', x);
            && o.s.store == s'.store && o.s.nextSuffix == s'.nextSuffix
            && |o.s.procs| == |s.procs| + 1 && o.s.procs[..|s.procs|] == s.procs
            && (var p := o.s.procs[|s.procs|];
                && p.exit.None? && p.name in o.s.nodes && o.s.nodes == s.nodes[p.name := o.s.nodes[p.name]]
                && (var node := o.s.nodes[p.name];
                    && node.cfg.name == p.name && node.id == p.id && node.pid == |s.procs|
                    && EntryOf(s, c, e, given, node)
                    && (forall k :: k !in RENAMED_KEYS ==> ToldAbout(s, given, node, p.args, k))
                    && RenamedSaid(s.site.floats, e.args.older("v0.4.1"), given, p.args)
                    && (if c.isBeacon && p.name !in s.nodes then
                          if Repeats(s.beacons, node.id, node.p2pPort) then o.err == Some(DuplicateBeacon) && o.s.beacons == s.beacons
                          else o.err.None? && o.s.beacons == s.beacons + [Beacon(node.id, node.p2pPort)]
                        else o.err.None? && o.s.beacons == s.beacons)))
  {
    hide BuildArgs, EntryOf, ToldAbout, Clashes, Repeats, RenamedSaid;
  }

  // ---------- removing and pausing ----------

  /** A process that is stopped has the code it exited with before, or else the given one. */
  predicate StoppedAs(before: Proc, after: Proc, code: int) {
    && after.name == before.name && after.id == before.id && after.args == before.args
    && after.exit == Some(if before.exit.Some? then before.exit.value else code)
  }

  /** What removing a node does: the entry and its beacons are gone, and a running process is
      stopped; it fails if there is no such node, and if the process does not exit with 0. */
  ghost predicate Removed(s: State, name: string, code: int, o: Outcome)
    requires WellFormed(s)
  {
    && o.s == s.(nodes := o.s.nodes, beacons := o.s.beacons, procs := o.s.procs) && |o.s.procs| == |s.procs|
    && (name !in s.nodes ==> o.err == Some(NodeNotFound) && o.s == s)
    && (name in s.nodes ==>
          && (forall n :: n in o.s.nodes <==> n in s.nodes && n != name)
          && (forall n :: n in o.s.nodes ==> o.s.nodes[n] == s.nodes[n])
          && (forall b :: b in o.s.beacons <==> b in s.beacons && b.id != s.nodes[name].id)
          && (forall p :: 0 <= p < |s.procs| && (p != s.nodes[name].pid || s.nodes[name].paused) ==> o.s.procs[p] == s.procs[p])
          && (s.nodes[name].paused ==> o.err.None?)
          && (!s.nodes[name].paused ==>
                var p := s.nodes[name].pid;
                StoppedAs(s.procs[p], o.s.procs[p], code)
                && o.err == if o.s.procs[p].exit == Some(0) then None else Some(NonZeroExit)))
  }

  /** removeNode. */
  lemma RemoveNodeMeans(s: State, name: string, code: int)
    requires WellFormed(s)
    ensures Removed(s, name, code, RemoveNode(s, name, code))
  {
    hide WithoutId;
    if name in s.nodes { WithoutIdMembers(s.beacons, s.nodes[name].id); }
  }

  /** What pausing a node does: its process is stopped, and it is marked if that exits with 0. */
  ghost predicate PausedAs(s: State, name: string, code: int, o: Outcome)
    requires WellFormed(s)
  {
    && o.s == s.(nodes := o.s.nodes, procs := o.s.procs) && |o.s.procs| == |s.procs|
    && (name !in s.nodes ==> o.err == Some(NodeNotFound) && o.s == s)
    && (name in s.nodes && s.nodes[name].paused ==> o.err == Some(AlreadyPaused) && o.s == s)
    && (name in s.nodes && !s.nodes[name].paused ==>
          var p := s.nodes[name].pid;
          && (forall q :: 0 <= q < |s.procs| && q != p ==> o.s.procs[q] == s.procs[q])
          && StoppedAs(s.procs[p], o.s.procs[p], code)
          && if o.s.procs[p].exit == Some(0)
             then o.err.None? && o.s.nodes == s.nodes[name := s.nodes[name].(paused := true)]
             else o.err == Some(NonZeroExit) && o.s.nodes == s.nodes)
  }

  /** pauseNode. */
  lemma PauseNodeMeans(s: State, name: string, code: int)
    requires WellFormed(s)
    ensures PausedAs(s, name, code, PauseNode(s, name, code))
  {
  }

  /** What stopping all nodes does: no node is left, every process that was running has
      stopped, and a failure is reported exactly if one did not exit with 0. */
  ghost predicate StoppedAll(s: State, codes: nat -> int, o: Outcome)
    requires WellFormed(s)
  {
    && o.s == s.(nodes := map[], beacons := o.s.beacons, procs := o.s.procs) && |o.s.procs| == |s.procs|
    && (forall b :: b in o.s.beacons <==> b in s.beacons && forall n :: n in s.nodes ==> s.nodes[n].id != b.id)
    && (forall n :: n in s.nodes && !s.nodes[n].paused ==>
          var p := s.nodes[n].pid; StoppedAs(s.procs[p], o.s.procs[p], codes(p)))
    && (forall p :: 0 <= p < |s.procs| && (forall n :: n in s.nodes && !s.nodes[n].paused ==> s.nodes[n].pid != p) ==>
          o.s.procs[p] == s.procs[p])
    && (o.err.Some? <==> exists n :: n in s.nodes && !s.nodes[n].paused && o.s.procs[s.nodes[n].pid].exit != Some(0))
    && (o.err.Some? ==> o.err == Some(NonZeroExit))
  }

  lemma StoppedProcs(s: State, codes: nat -> int)
    requires WellFormed(s)
    ensures var procs := StopAll(s, codes).s.procs;
            && |procs| == |s.procs|
            && (forall n :: n in s.nodes && !s.nodes[n].paused ==>
                  var p := s.nodes[n].pid; StoppedAs(s.procs[p], procs[p], codes(p)))
            && (forall p :: 0 <= p < |s.procs| && (forall n :: n in s.nodes && !s.nodes[n].paused ==> s.nodes[n].pid != p) ==>
                  procs[p] == s.procs[p])
  {
    hide WithoutIds, SomeExitFails;
    forall n | n in s.nodes && !s.nodes[n].paused ensures s.nodes[n].pid in LivePids(s.nodes) { }
  }

  lemma StoppedErr(s: State, codes: nat -> int)
    requires WellFormed(s)
    ensures var o := StopAll(s, codes);
            && |o.s.procs| == |s.procs|
            && (o.err.Some? <==> exists n :: n in s.nodes && !s.nodes[n].paused && o.s.procs[s.nodes[n].pid].exit != Some(0))
            && (o.err.Some? ==> o.err == Some(NonZeroExit))
  {
    StoppedProcs(s, codes);
    hide WithoutIds, HaltAll;
  }

  /** stop. */
  lemma StopAllMeans(s: State, codes: nat -> int)
    requires WellFormed(s)
    ensures StoppedAll(s, codes, StopAll(s, codes))
  {
    StoppedProcs(s, codes);
    StoppedErr(s, codes);
    WithoutIdsMembers(s.beacons, Ids(s.nodes));
    hide WithoutIds, HaltAll, SomeExitFails, StoppedAs, LivePids;
    forall n | n in s.nodes ensures s.nodes[n].id in Ids(s.nodes) { }
  }

  // ---------- resuming and restarting ----------

  /** The flags with the place of the node written into them. */
  ghost predicate PlaceWritten(flags: FlagMap, node: Node, written: FlagMap) {
    && {DataDir, DbDir, LogDir, HttpPort, StakingPort} <= written.Keys
    && written[DataDir] == Str(node.dataDir) && written[DbDir] == Str(node.dbDir) && written[LogDir] == Str(node.logsDir)
    && written[HttpPort] == Int(node.apiPort) && written[StakingPort] == Int(node.p2pPort)
    && (forall k :: k !in {DataDir, DbDir, LogDir, HttpPort, StakingPort} ==>
          (k in written <==> k in flags) && (k in flags ==> k in written && written[k] == flags[k]))
  }

  /** Only one map of the store differs. */
  ghost predicate OneWritten(s: State, m: State, a: nat) {
    && a < |s.store| && |m.store| == |s.store| && (forall b :: 0 <= b < |s.store| && b != a ==> m.store[b] == s.store[b])
    && m == s.(store := m.store)
  }

  /** What resuming a node does: its place is written into its flags, and its config is added
      again. */
  ghost predicate Resumed(s: State, name: string, e: AddEnv, o: Outcome)
    requires WellFormed(s)
  {
    if name !in s.nodes then o == Outcome(s, Some(NodeNotFound))
    else if !s.nodes[name].paused then o == Outcome(s, Some(NotPaused))
    else
      var node := s.nodes[name];
      var a := node.cfg.flags.value;
      exists m, given ::
        OneWritten(s, m, a) && PlaceWritten(s.store[a], node, m.store[a]) && Allocated(m, node.cfg)
        && Added(m, node.cfg, e, o, given)
  }

  /** resumeNode. */
  lemma ResumeNodeMeans(s: State, name: string, e: AddEnv)
    requires WellFormed(s)
    ensures Resumed(s, name, e, ResumeNode(s, name, e))
  {
    hide AddNode, Added;
    if name in s.nodes && s.nodes[name].paused {
      var node := s.nodes[name];
      var a := node.cfg.flags.value;
      var m := WriteFlags(s, a, PinnedFor(s.store[a], node));
      AddNodeMeans(m, node.cfg, e);
      assert OneWritten(s, m, a) && PlaceWritten(s.store[a], node, m.store[a]);
      var given :| Added(m, node.cfg, e, AddNode(m, node.cfg, e), given);
      hide OneWritten, PlaceWritten, ResumeNode;
      assert ResumeNode(s, name, e) == AddNode(m, node.cfg, e) by { ResumeIsAdd(s, name, e); }
    }
  }

  lemma ResumeIsAdd(s: State, name: string, e: AddEnv)
    requires WellFormed(s) && name in s.nodes && s.nodes[name].paused
    ensures var a := s.nodes[name].cfg.flags.value;
            ResumeNode(s, name, e) == AddNode(WriteFlags(s, a, PinnedFor(s.store[a], s.nodes[name])), s.nodes[name].cfg, e)
  {
    hide AddNode, Pinned;
  }

  /** The flags with which a node is started again by a restart. */
  ghost predicate RestartFlags(s: State, node: Node, o: Overrides, given: FlagMap)
    requires node.cfg.flags.Some? && node.cfg.flags.value < |s.store|
  {
    var own := s.store[node.cfg.flags.value];
    && {DataDir, DbDir, LogDir, HttpPort, StakingPort} <= given.Keys
    && given[DataDir] == Str(node.dataDir) && given[DbDir] == Str(node.dbDir) && given[LogDir] == Str(node.logsDir)
    && given[HttpPort] == Int(node.apiPort) && given[StakingPort] == Int(node.p2pPort)
    && (o.pluginDir != "" ==> PluginDir in given && given[PluginDir] == Str(o.pluginDir))
    && (o.trackSubnets != "" ==> TrackSubnets in given && given[TrackSubnets] == Str(o.trackSubnets))
    && (forall k :: k !in {DataDir, DbDir, LogDir, HttpPort, StakingPort}
                    && !(k == PluginDir && o.pluginDir != "") && !(k == TrackSubnets && o.trackSubnets != "") ==>
          (k in given <==> k in own || k in s.netFlags)
          && (k in own ==> k in given && given[k] == own[k])
          && (k in s.netFlags && k !in own ==> k in given && given[k] == s.netFlags[k]))
  }

  /** The config files after a restart: those given over the node's own, over the network's. */
  ghost predicate RestartFiles(s: State, node: Node, o: Overrides, given: ConfigFiles) {
    && (forall f :: f in o.files ==> f in given && given[f] == o.files[f])
    && (forall f :: f in node.cfg.files && f !in o.files ==> f in given && given[f] == node.cfg.files[f])
    && (forall f :: f in s.files && f !in node.cfg.files && f !in o.files ==> f in given && given[f] == s.files[f])
    && (forall f :: f in given ==> f in o.files || f in node.cfg.files || f in s.files)
  }

  /** What a successful restart makes of a node. */
  ghost predicate RestartedAs(s: State, node: Node, o: Overrides, e: AddEnv, now: Node, args: ArgMap, given: FlagMap)
    requires node.cfg.flags.Some? && node.cfg.flags.value < |s.store|
  {
    && now.cfg.binaryPath == (if o.binaryPath != "" then o.binaryPath
                              else if node.cfg.binaryPath != "" then node.cfg.binaryPath else s.binaryPath)
    && RestartFlags(s, node, o, given) && RestartFiles(s, node, o, now.cfg.files)
    && now.cfg.name == node.cfg.name && now.cfg.isBeacon == node.cfg.isBeacon && now.cfg.configFile == node.cfg.configFile
    && now.cfg.flags == node.cfg.flags && (node.cfg.cert != "" ==> now.cfg.cert == node.cfg.cert)
    && now.dataDir == node.dataDir && now.dbDir == node.dbDir && now.logsDir == node.logsDir
    && (forall k :: k !in RENAMED_KEYS && k !in {HttpPort, StakingPort} && k in given ==> k in args && Printed(s.site.floats, given[k], args[k]))
    && RenamedSaid(s.site.floats, e.args.older("v0.4.1"), given, args)
    && HttpPort in args && Says(args[HttpPort], now.apiPort) && StakingPort in args && Says(args[StakingPort], now.p2pPort)
  }

  /** The node's own flags once the overrides and its place are written into them. */
  ghost predicate OverridesWritten(own: FlagMap, node: Node, o: Overrides, written: FlagMap) {
    && {DataDir, DbDir, LogDir, HttpPort, StakingPort} <= written.Keys
    && written[DataDir] == Str(node.dataDir) && written[DbDir] == Str(node.dbDir) && written[LogDir] == Str(node.logsDir)
    && written[HttpPort] == Int(node.apiPort) && written[StakingPort] == Int(node.p2pPort)
    && (o.pluginDir != "" ==> PluginDir in written && written[PluginDir] == Str(o.pluginDir))
    && (o.trackSubnets != "" ==> TrackSubnets in written && written[TrackSubnets] == Str(o.trackSubnets))
    && (forall k :: k !in {DataDir, DbDir, LogDir, HttpPort, StakingPort}
                    && !(k == PluginDir && o.pluginDir != "") && !(k == TrackSubnets && o.trackSubnets != "") ==>
          (k in written <==> k in own) && (k in own ==> k in written && written[k] == own[k]))
  }

  lemma OverridesAreWritten(own: FlagMap, node: Node, o: Overrides)
    ensures OverridesWritten(own, node, o, PinnedFor(OverriddenFlags(own, o), node))
  {
  }

  lemma GivenAfterOverride(s: State, node: Node, o: Overrides, c: NodeConfig, m: State, given: FlagMap)
    requires c.flags == node.cfg.flags && c.flags.Some? && c.flags.value < |s.store| && Allocated(m, c)
    requires OverridesWritten(s.store[c.flags.value], node, o, m.store[c.flags.value])
    requires m.netFlags == s.netFlags && GivenFlags(m, c, given)
    ensures RestartFlags(s, node, o, given)
  {
    var own := m.store[c.flags.value];
    assert forall k :: k in own ==> k in given && given[k] == own[k];
  }

  lemma FilesAfterOverride(s: State, node: Node, o: Overrides, given: ConfigFiles)
    requires GivenFiles(s.files, node.cfg.files + o.files, given)
    ensures RestartFiles(s, node, o, given)
  {
    var own := node.cfg.files + o.files;
    assert forall f :: f in own ==> f in given && given[f] == own[f];
  }

  lemma ArgsAfterRestart(s: State, m: State, given: FlagMap, now: Node, args: ArgMap)
    requires m.site == s.site && forall k :: k !in RENAMED_KEYS ==> ToldAbout(m, given, now, args, k)
    ensures forall k :: k !in RENAMED_KEYS && k !in {HttpPort, StakingPort} && k in given ==> k in args && Printed(s.site.floats, given[k], args[k])
    ensures HttpPort in args && Says(args[HttpPort], now.apiPort) && StakingPort in args && Says(args[StakingPort], now.p2pPort)
  {
    hide Printed;
    assert ToldAbout(m, given, now, args, HttpPort) && ToldAbout(m, given, now, args, StakingPort);
    forall k | k !in RENAMED_KEYS && k !in {HttpPort, StakingPort} && k in given ensures k in args && Printed(s.site.floats, given[k], args[k]) {
      assert ToldAbout(m, given, now, args, k);
    }
  }

  lemma PlaceAfterRestart(s: State, node: Node, o: Overrides, m: State, c: NodeConfig, e: AddEnv, given: FlagMap, now: Node)
    requires node.cfg.flags.Some? && node.cfg.flags.value < |s.store|
    requires RestartFlags(s, node, o, given) && Allocated(m, c) && EntryOf(m, c, e, given, now)
    ensures now.dataDir == node.dataDir && now.dbDir == node.dbDir && now.logsDir == node.logsDir
  {
    hide PortChosen, GivenFiles, JoinPath;
  }

  lemma EntryAfterOverride(s: State, node: Node, o: Overrides, c: NodeConfig, m: State, e: AddEnv, given: FlagMap, now: Node, args: ArgMap)
    requires node.cfg.flags.Some? && node.cfg.flags.value < |s.store| && node.cfg.name != "" && Allocated(m, c)
    requires c == node.cfg.(files := node.cfg.files + o.files,
                            binaryPath := if o.binaryPath != "" then o.binaryPath else node.cfg.binaryPath)
    requires m.files == s.files && m.binaryPath == s.binaryPath && m.site == s.site
    requires RestartFlags(s, node, o, given) && EntryOf(m, c, e, given, now)
    requires forall k :: k !in RENAMED_KEYS ==> ToldAbout(m, given, now, args, k)
    requires RenamedSaid(s.site.floats, e.args.older("v0.4.1"), given, args)
    ensures RestartedAs(s, node, o, e, now, args, given)
  {
    hide RestartFlags, RestartFiles, PortChosen, Chosen, RenamedSaid, Printed, JoinPath, GivenFiles, ToldAbout;
    PlaceAfterRestart(s, node, o, m, c, e, given, now);
    ArgsAfterRestart(s, m, given, now, args);
    FilesAfterOverride(s, node, o, now.cfg.files);
  }

  /** What a successful restart does: the node has what was given for it, and otherwise what it
      had, and its process is told so. */
  ghost predicate Restarted(s: State, name: string, o: Overrides, e: AddEnv, r: State)
    requires WellFormed(s)
  {
    && name in s.nodes && name in r.nodes && |r.procs| == |s.procs| + 1 && r.nodes[name].pid == |s.procs|
    && (!s.nodes[name].paused ==> r.procs[s.nodes[name].pid].exit == Some(0))
    && exists given :: RestartedAs(s, s.nodes[name], o, e, r.nodes[name], r.procs[|s.procs|].args, given)
  }

  /** restartNode, when it succeeds. */
  lemma RestartNodeMeans(s: State, name: string, o: Overrides, code: int, e: AddEnv)
    requires WellFormed(s) && (name in s.nodes ==> s.nodes[name].cfg.name == name != "")
    requires RestartNode(s, name, o, code, e).err.None?
    ensures Restarted(s, name, o, e, RestartNode(s, name, o, code, e).s)
  {
    hide AddNode, RemoveNode, Overridden, EntryOf, ToldAbout, RenamedSaid, RestartedAs, RestartFlags, GivenFlags, Addable, Repeats,
         OverridesWritten;
    OverriddenIs(s, name, o);
    var node, s1 := s.nodes[name], Overridden(s, name, o);
    var c := RestartConfig(s1.nodes[name], o);
    if !node.paused { RemoveFacts(s1, name, code); RemoveNodeMeans(s1, name, code); }
    var m := if node.paused then s1 else RemoveNode(s1, name, code).s;
    AddNodeMeans(m, c, e);
    var given :| Added(m, c, e, AddNode(m, c, e), given);
    GivenAfterOverride(s, node, o, c, m, given);
    var r := AddNode(m, c, e).s;
    assert r.procs[node.pid] == r.procs[..|s.procs|][node.pid];
    EntryNamed(m, c, e, given, r.nodes[r.procs[|s.procs|].name]);
    EntryAfterOverride(s, node, o, c, m, e, given, r.nodes[name], r.procs[|s.procs|].args);
  }

  /** When a process can be started for a node that has a name of its own. */
  ghost predicate StartPossible(s: State, c: NodeConfig, e: AddEnv, given: FlagMap) {
    && (c.cert != "" || e.newCert != "") && e.signingKeyOk && e.dirOk && (c.configFile.Some? ==> e.configParses) && e.versionKnown
    && Buildable(s.site, given, if c.configFile.Some? then c.configFile.value else map[], e.args)
    && s.site.idOf(if c.cert != "" then c.cert else e.newCert).Some? && e.launches
  }

  /** What the attempt to start a node again comes to. */
  ghost predicate Attempted(s: State, c: NodeConfig, e: AddEnv, r: Outcome, given: FlagMap) {
    if StartPossible(s, c, e, given) then |r.s.procs| == |s.procs| + 1 && (r.err.None? || r.err == Some(DuplicateBeacon))
    else |r.s.procs| == |s.procs| && r.err.Some? && BeforeStart(r.err.value)
  }

  lemma AddIsAttempt(s: State, m: State, c: NodeConfig, d: NodeConfig, e: AddEnv, given: FlagMap)
    requires Allocated(m, c) && Added(m, c, e, AddNode(m, c, e), given) && m.site == s.site && |m.procs| == |s.procs|
    requires c.cert == d.cert && c.configFile == d.configFile && (c.name in m.nodes ==> m.nodes[c.name].paused)
    ensures Attempted(s, d, e, AddNode(m, c, e), given)
  {
    hide AddNode, EntryOf, ToldAbout, RenamedSaid, GivenFlags, Buildable, Repeats;
  }

  /** A restart fails if there is no such node, if the running process does not exit with 0,
      or if no process can be started; then, and only then, none is. */
  ghost predicate RestartTried(s: State, name: string, o: Overrides, code: int, e: AddEnv, r: Outcome)
    requires WellFormed(s)
  {
    if name !in s.nodes then r == Outcome(s, Some(NodeNotFound))
    else
      var node := s.nodes[name];
      if !node.paused && (if s.procs[node.pid].exit.Some? then s.procs[node.pid].exit.value else code) != 0
      then r.err == Some(NonZeroExit) && |r.s.procs| == |s.procs| && name !in r.s.nodes
      else exists given :: RestartFlags(s, node, o, given) && Attempted(s, node.cfg, e, r, given)
  }

  /** restartNode, whether it succeeds or not. */
  lemma RestartNodeFails(s: State, name: string, o: Overrides, code: int, e: AddEnv)
    requires WellFormed(s) && (name in s.nodes ==> s.nodes[name].cfg.name == name != "")
    ensures RestartTried(s, name, o, code, e, RestartNode(s, name, o, code, e))
  {
    hide AddNode, RemoveNode, Overridden, RestartFlags, GivenFlags, OverridesWritten, Attempted, EntryOf, ToldAbout, RenamedSaid, Addable,
         Repeats;
    if name in s.nodes {
      OverriddenIs(s, name, o);
      var node, s1 := s.nodes[name], Overridden(s, name, o);
      var c := RestartConfig(s1.nodes[name], o);
      RemoveNodeMeans(s1, name, code);
      var m := if node.paused then s1 else RemoveNode(s1, name, code).s;
      AddNodeMeans(m, c, e);
      var given :| Added(m, c, e, AddNode(m, c, e), given);
      GivenAfterOverride(s, node, o, c, m, given);
      AddIsAttempt(s, m, c, node.cfg, e, given);
    }
  }

  lemma EntryNamed(s: State, c: NodeConfig, e: AddEnv, given: FlagMap, node: Node)
    requires Allocated(s, c) && EntryOf(s, c, e, given, node) && c.name != ""
    ensures node.cfg.name == c.name
  {
  }

  lemma OverriddenIs(s: State, name: string, o: Overrides)
    requires WellFormed(s) && name in s.nodes
    ensures var node, s1 := s.nodes[name], Overridden(s, name, o);
            && WellFormed(s1) && s1 == s.(store := s1.store, nodes := s1.nodes) && name in s1.nodes && |s1.store| == |s.store|
            && s1.nodes[name] == node.(cfg := node.cfg.(files := node.cfg.files + o.files))
            && OverridesWritten(s.store[node.cfg.flags.value], node, o, s1.store[node.cfg.flags.value])
  {
    hide PinnedFor, OverriddenFlags, OverridesWritten;
    LocalNetworks.OverriddenKeepsShape(s, name, o);
    OverridesAreWritten(s.store[s.nodes[name].cfg.flags.value], s.nodes[name], o);
  }

  // ---------- loading ----------

  /** What a config file of a node must not be. */
  ghost predicate BadFile(file: FlagMap, networkId: nat) {
    || (NetworkName in file && (!file[NetworkName].Float? || !NamesNetwork(file[NetworkName].x, networkId)))
    || (DbDir in file && !file[DbDir].Str?) || (LogDir in file && !file[LogDir].Str?)
    || (HttpPort in file && !file[HttpPort].Float?) || (StakingPort in file && !file[StakingPort].Float?)
  }

  /** A number in a config file is the ID of the network, in 32 bits. */
  ghost predicate NamesNetwork(x: real, networkId: nat) {
    networkId < 0x1_0000_0000 && exists t: int :: WholePart(x, t) && (t - networkId) % 0x1_0000_0000 == 0
  }

  lemma NamesNetworkIff(x: real, networkId: nat)
    ensures NamesNetwork(x, networkId) <==> Truncate(x) % 0x1_0000_0000 == networkId
  {
    TruncateMeans(x);
    var t := Truncate(x);
    if t % 0x1_0000_0000 == networkId { assert WholePart(x, t) && (t - networkId) % 0x1_0000_0000 == 0; }
  }

  /** loadConfig refuses a configuration as invalid exactly if its genesis is not that of the
      network, if a node has no key pair or a bad config file, or if it has nodes but no beacon. */
  lemma LoadRefusesIff(s: State, conf: NetConfig, envs: nat -> AddEnv, codes: nat -> int)
    requires WellFormed(s) && AllAllocated(s, conf.nodes)
    ensures var o := LoadConfig(s, conf, envs, codes);
            && (o.err == Some(InvalidConfig) <==>
                  || !conf.genesisOk
                  || (exists i :: 0 <= i < |conf.nodes| && conf.nodes[i].cert == "")
                  || (exists i :: 0 <= i < |conf.nodes| && conf.nodes[i].configFile.Some?
                                  && BadFile(conf.nodes[i].configFile.value, s.site.networkId))
                  || (conf.nodes != [] && forall i :: 0 <= i < |conf.nodes| ==> !conf.nodes[i].isBeacon))
            && (o.err == Some(InvalidConfig) ==> o.s == s)
  {
    hide AddAll, StartOrder, StopAll, ValidConfigFile, BadFile;
    forall i | 0 <= i < |conf.nodes| && conf.nodes[i].configFile.Some?
      ensures ValidConfigFile(conf.nodes[i].configFile.value, s.site.networkId) <==> !BadFile(conf.nodes[i].configFile.value, s.site.networkId)
    {
      BadFileIff(conf.nodes[i].configFile.value, s.site.networkId);
    }
    StartOrderAllocated(s, conf.nodes);
    AddAllErrors(WithNetDefaults(s, conf), StartOrder(conf.nodes), envs);
  }

  lemma BadFileIff(file: FlagMap, networkId: nat)
    ensures ValidConfigFile(file, networkId) <==> !BadFile(file, networkId)
  {
    if NetworkName in file && file[NetworkName].Float? { NamesNetworkIff(file[NetworkName].x, networkId); }
  }

  lemma {:induction false} AddAllErrors(s: State, cs: seq<NodeConfig>, envs: nat -> AddEnv)
    requires AllAllocated(s, cs)
    ensures AddAll(s, cs, envs).err != Some(InvalidConfig)
    decreases |cs|
  {
    hide AddNode;
    if cs != [] {
      AddAllErrors(s, cs[..|cs| - 1], envs);
      var first := AddAll(s, cs[..|cs| - 1], envs);
      if first.err.None? { AddNodeErrors(first.s, cs[|cs| - 1], envs(|cs| - 1)); }
    }
  }

  /** What starting some nodes one after the other does: it ends with the first that fails. */
  ghost predicate StartedAll(s: State, cs: seq<NodeConfig>, envs: nat -> AddEnv, o: Outcome)
    decreases |cs|
  {
    if cs == [] then o == Outcome(s, None)
    else
      var m := |cs| - 1;
      exists before: Outcome ::
        StartedAll(s, cs[..m], envs, before)
        && if before.err.Some? then o == before
           else Allocated(before.s, cs[m]) && exists given :: Added(before.s, cs[m], envs(m), o, given)
  }

  lemma {:induction false} AddAllMeans(s: State, cs: seq<NodeConfig>, envs: nat -> AddEnv)
    requires AllAllocated(s, cs)
    ensures StartedAll(s, cs, envs, AddAll(s, cs, envs))
    decreases |cs|
  {
    hide AddNode, Added;
    if cs != [] {
      var m := |cs| - 1;
      AddAllMeans(s, cs[..m], envs);
      var before := AddAll(s, cs[..m], envs);
      if before.err.None? { AddNodeMeans(before.s, cs[m], envs(m)); }
    }
  }

  /** What loading a valid configuration does: its defaults become the network's, its nodes are
      started, and if one cannot be, all are stopped again. */
  ghost predicate Loaded(s: State, conf: NetConfig, order: seq<NodeConfig>, envs: nat -> AddEnv, codes: nat -> int, o: Outcome) {
    exists started: Outcome ::
      && StartedAll(s.(netFlags := conf.flags, binaryPath := conf.binaryPath, files := conf.files), order, envs, started)
      && if started.err.None? then o == started
         else WellFormed(started.s) && o.err == started.err && exists err :: StoppedAll(started.s, codes, Outcome(o.s, err))
  }

  /** loadConfig; in which order the nodes are started is said by Startup.StartOrderIsStable. */
  lemma LoadConfigMeans(s: State, conf: NetConfig, envs: nat -> AddEnv, codes: nat -> int)
    requires WellFormed(s) && AllAllocated(s, conf.nodes)
    ensures var o := LoadConfig(s, conf, envs, codes);
            o.err != Some(InvalidConfig) ==> Loaded(s, conf, StartOrder(conf.nodes), envs, codes, o)
  {
    hide AddAll, StartOrder, StopAll, ValidConfig, StartedAll, StoppedAll;
    StartOrderAllocated(s, conf.nodes);
    var s1 := s.(netFlags := conf.flags, binaryPath := conf.binaryPath, files := conf.files);
    AddAllMeans(s1, StartOrder(conf.nodes), envs);
    var started := AddAll(s1, StartOrder(conf.nodes), envs);
    StopAllMeans(started.s, codes);
    if started.err.Some? && LoadConfig(s, conf, envs, codes).err != Some(InvalidConfig) {
      assert StoppedAll(started.s, codes, Outcome(LoadConfig(s, conf, envs, codes).s, StopAll(started.s, codes).err));
    }
  }

  // ---------- the other steps of a run ----------

  /** What the steps of a run do that are no operation on a single node: a map is made, a
      configuration is loaded, the stop latch is closed, all nodes are stopped, a flag or a file
      of a node is written, and a process exits. */
  ghost predicate StepDone(s: State, op: Op, r: State)
    requires WellFormed(s) && Legal(s, op)
  {
    match op
    case NewFlags(m) => r == s.(store := r.store) && |r.store| == |s.store| + 1 && r.store[..|s.store|] == s.store && r.store[|s.store|] == m
    case Load(conf, envs, codes) =>
      r == s || exists err :: err != Some(InvalidConfig) && Loaded(s, conf, StartOrder(conf.nodes), envs, codes, Outcome(r, err))
    case AddUnchecked(c, e) => exists err, given :: Added(s, c, e, Outcome(r, err), given)
    case CloseStop => r == s.(stopped := r.stopped) && r.stopped
    case StopLocked(codes) => exists err :: StoppedAll(s, codes, Outcome(r, err))
    case Save(proceeds, codes) => if s.stopped || !proceeds then r == s else exists err :: StoppedAll(s, codes, Outcome(r, err))
    case SetFlag(name, key, value) =>
      if name !in s.nodes then r == s
      else
        var a := s.nodes[name].cfg.flags.value;
        && OneWritten(s, r, a) && key in r.store[a] && r.store[a][key] == value
        && (forall k :: k != key ==> SameAt(s.store[a], r.store[a], k))
    case SetFile(name, file, text) =>
      if name !in s.nodes then r == s
      else
        && r == s.(nodes := r.nodes) && name in r.nodes && r.nodes == s.nodes[name := r.nodes[name]]
        && (var node, now := s.nodes[name], r.nodes[name];
            && now == node.(cfg := node.cfg.(files := now.cfg.files))
            && (forall f :: f in now.cfg.files <==> f == file || f in node.cfg.files)
            && (forall f :: f in now.cfg.files ==> now.cfg.files[f] == if f == file then text else node.cfg.files[f]))
    case Exit(pid, code) =>
      && r == s.(procs := r.procs) && |r.procs| == |s.procs|
      && (forall p :: 0 <= p < |s.procs| ==> if p == pid then StoppedAs(s.procs[p], r.procs[p], code) else r.procs[p] == s.procs[p])
    case _ => true
  }

  lemma StepMeans(s: State, op: Op)
    requires WellFormed(s) && Legal(s, op)
    ensures StepDone(s, op, Do(s, op))
  {
    hide AddNode, RemoveNode, PauseNode, ResumeNode, RestartNode, LoadConfig, StopAll, Added, StoppedAll, Loaded;
    match op
    case Load(conf, envs, codes) =>
      LoadConfigMeans(s, conf, envs, codes);
      LoadRefusesIff(s, conf, envs, codes);
      var o := LoadConfig(s, conf, envs, codes);
      assert o == Outcome(Do(s, op), o.err);
    case AddUnchecked(c, e) =>
      AddNodeMeans(s, c, e);
      assert AddNode(s, c, e) == Outcome(Do(s, op), AddNode(s, c, e).err);
    case StopLocked(codes) =>
      StopAllMeans(s, codes);
      assert StopAll(s, codes) == Outcome(Do(s, op), StopAll(s, codes).err);
    case Save(proceeds, codes) =>
      StopAllMeans(s, codes);
      if !s.stopped && proceeds { assert StopAll(s, codes) == Outcome(Do(s, op), StopAll(s, codes).err); }
    case SetFlag(name, key, value) => SetFlagMeans(s, name, key, value);
    case SetFile(name, file, text) => SetFileMeans(s, name, file, text);
    case _ =>
  }

  lemma SetFlagMeans(s: State, name: string, key: Key, value: Value)
    requires WellFormed(s)
    ensures StepDone(s, SetFlag(name, key, value), Do(s, SetFlag(name, key, value)))
  {
    hide WellFormed;
    if name in s.nodes { EntryRefers(s, name); }
  }

  lemma EntryRefers(s: State, name: string)
    requires WellFormed(s) && name in s.nodes
    ensures s.nodes[name].cfg.flags.Some? && s.nodes[name].cfg.flags.value < |s.store|
  {
  }

  lemma SetFileMeans(s: State, name: string, file: (FileKind, string), text: string)
    requires WellFormed(s)
    ensures StepDone(s, SetFile(name, file, text), Do(s, SetFile(name, file, text)))
  {
  }

  // ---------- what stays of a process ----------

  /** A process keeps its name, its identity and its command line, and once it has exited, its
      exit code. */
  ghost predicate ProcsStay(before: seq<Proc>, after: seq<Proc>) {
    && |after| >= |before|
    && (forall p :: 0 <= p < |before| ==>
          && after[p].name == before[p].name && after[p].id == before[p].id && after[p].args == before[p].args
          && (before[p].exit.Some? ==> after[p].exit == before[p].exit))
  }

  lemma ProcsStayTwice(a: seq<Proc>, b: seq<Proc>, c: seq<Proc>)
    requires ProcsStay(a, b) && ProcsStay(b, c)
    ensures ProcsStay(a, c)
  {
  }

  lemma AddKeepsProcs(s: State, c: NodeConfig, e: AddEnv)
    requires Allocated(s, c)
    ensures ProcsStay(s.procs, AddNode(s, c, e).s.procs)
  {
    hide Addable, EntryOf, ToldAbout, GivenFlags, Repeats, AddNode, RenamedSaid;
    AddNodeMeans(s, c, e);
    var given :| Added(s, c, e, AddNode(s, c, e), given);
    var r := AddNode(s, c, e).s;
    if |r.procs| > |s.procs| {
      forall p | 0 <= p < |s.procs| ensures r.procs[p] == s.procs[p] { assert r.procs[p] == r.procs[..|s.procs|][p]; }
    }
  }

  lemma {:induction false} AddAllKeepsProcs(s: State, cs: seq<NodeConfig>, envs: nat -> AddEnv)
    requires AllAllocated(s, cs)
    ensures ProcsStay(s.procs, AddAll(s, cs, envs).s.procs)
    decreases |cs|
  {
    hide AddNode, ProcsStay;
    if cs == [] {
      SameProcsStay(s.procs);
    } else {
      AddAllKeepsProcs(s, cs[..|cs| - 1], envs);
      var first := AddAll(s, cs[..|cs| - 1], envs);
      if first.err.None? {
        AddKeepsProcs(first.s, cs[|cs| - 1], envs(|cs| - 1));
        ProcsStayTwice(s.procs, first.s.procs, AddNode(first.s, cs[|cs| - 1], envs(|cs| - 1)).s.procs);
      }
    }
  }

  lemma SameProcsStay(procs: seq<Proc>)
    ensures ProcsStay(procs, procs)
  {
  }

  lemma RemoveKeepsProcs(s: State, name: string, code: int)
    requires WellFormed(s)
    ensures ProcsStay(s.procs, RemoveNode(s, name, code).s.procs)
  {
    hide WithoutId;
  }

  lemma OpKeepsProcs(s: State, op: Op)
    requires WellFormed(s) && Legal(s, op)
    ensures ProcsStay(s.procs, Do(s, op).procs)
  {
    hide AddNode, RemoveNode, RestartNode, ResumeNode, PauseNode, AddAll, StartOrder, WithoutIds, ProcsStay;
    SameProcsStay(s.procs);
    match op
    case Load(conf, envs, codes) => LoadKeepsProcs(s, conf, envs, codes);
    case Add(c, e) => AddKeepsProcs(s, c, e);
    case AddUnchecked(c, e) => AddKeepsProcs(s, c, e);
    case Remove(name, code) => RemoveKeepsProcs(s, name, code);
    case Pause(name, code) => PauseKeepsProcs(s, name, code);
    case Resume(name, e) => ResumeKeepsProcs(s, name, e);
    case Restart(name, o, code, e) => RestartKeepsProcs(s, name, o, code, e);
    case StopLocked(codes) => StopKeepsProcs(s, codes);
    case Save(proceeds, codes) => StopKeepsProcs(s, codes);
    case Exit(pid, code) => ExitKeepsProcs(s, pid, code);
    case _ =>
  }

  lemma ExitKeepsProcs(s: State, pid: nat, code: int)
    requires WellFormed(s)
    ensures ProcsStay(s.procs, Do(s, Exit(pid, code)).procs)
  {
  }

  lemma StopKeepsProcs(s: State, codes: nat -> int)
    requires WellFormed(s)
    ensures ProcsStay(s.procs, StopAll(s, codes).s.procs)
  {
    hide WithoutIds;
  }

  lemma PauseKeepsProcs(s: State, name: string, code: int)
    requires WellFormed(s)
    ensures ProcsStay(s.procs, PauseNode(s, name, code).s.procs)
  {
  }

  lemma LoadKeepsProcs(s: State, conf: NetConfig, envs: nat -> AddEnv, codes: nat -> int)
    requires WellFormed(s) && AllAllocated(s, conf.nodes)
    ensures ProcsStay(s.procs, LoadConfig(s, conf, envs, codes).s.procs)
  {
    hide AddAll, StartOrder, StopAll, ProcsStay;
    StartOrderAllocated(s, conf.nodes);
    SameProcsStay(s.procs);
    var added := AddAll(WithNetDefaults(s, conf), StartOrder(conf.nodes), envs);
    AddAllKeepsProcs(WithNetDefaults(s, conf), StartOrder(conf.nodes), envs);
    StopKeepsProcs(added.s, codes);
    ProcsStayTwice(s.procs, added.s.procs, StopAll(added.s, codes).s.procs);
  }

  lemma ResumeKeepsProcs(s: State, name: string, e: AddEnv)
    requires WellFormed(s)
    ensures ProcsStay(s.procs, ResumeNode(s, name, e).s.procs)
  {
    hide AddNode, Pinned, ProcsStay;
    SameProcsStay(s.procs);
    if name in s.nodes {
      var a := s.nodes[name].cfg.flags.value;
      AddKeepsProcs(WriteFlags(s, a, PinnedFor(s.store[a], s.nodes[name])), s.nodes[name].cfg, e);
    }
  }

  lemma RestartKeepsProcs(s: State, name: string, o: Overrides, code: int, e: AddEnv)
    requires WellFormed(s)
    ensures ProcsStay(s.procs, RestartNode(s, name, o, code, e).s.procs)
  {
    hide AddNode, RemoveNode, Overridden, ProcsStay;
    SameProcsStay(s.procs);
    if name in s.nodes {
      LocalNetworks.OverriddenKeepsShape(s, name, o);
      OverriddenIs(s, name, o);
      var s1 := Overridden(s, name, o);
      var c := RestartConfig(s1.nodes[name], o);
      if s1.nodes[name].paused {
        AddKeepsProcs(s1, c, e);
      } else {
        RemoveKeepsProcs(s1, name, code);
        RemoveFacts(s1, name, code);
        var m := RemoveNode(s1, name, code).s;
        AddKeepsProcs(m, c, e);
        ProcsStayTwice(s.procs, m.procs, AddNode(m, c, e).s.procs);
      }
    }
  }

  /** Over every run no process is forgotten or changed, and no exit code is rewritten. */
  lemma {:induction false} RunKeepsProcs(s: State, ops: seq<Op>)
    requires Inv(s) && Possible(s, ops)
    ensures ProcsStay(s.procs, Run(s, ops).procs)
    decreases |ops|
  {
    hide Do, Owned, ProcsStay;
    if ops == [] {
      SameProcsStay(s.procs);
    } else {
      OpKeepsInv(s, ops[0]);
      OpKeepsProcs(s, ops[0]);
      RunKeepsProcs(Do(s, ops[0]), ops[1..]);
      ProcsStayTwice(s.procs, Do(s, ops[0]).procs, Run(s, ops).procs);
    }
  }
}
