/** Writing and reading snapshots (SaveSnapshot and loadSnapshot in local/snapshot.go). */
module SnapshotFiles {
  import opened Common
  import opened Strings
  import opened Paths
  import opened Flags
  import opened Network
  import opened Runs
  import opened LocalNetworks
  import opened TrackedSubnets
  import opened Snapshot

  // ---------- SaveSnapshot ----------

  /** Copies of the node configs whose Flags maps are new. */
  ghost predicate Copies(s: State, store: seq<FlagMap>, confs: map<string, NodeConfig>)
    requires WellFormed(s)
  {
    && |store| >= |s.store| && store[..|s.store|] == s.store
    && (forall n :: n in confs ==>
          && n in s.nodes && confs[n].flags.Some? && |s.store| <= confs[n].flags.value < |store|
          && confs[n] == s.nodes[n].cfg.(flags := confs[n].flags, configFile := confs[n].configFile))
    && (forall m, n :: m in confs && n in confs && confs[m].flags == confs[n].flags ==> m == n)
  }

  /** The copies of the flags: some nodes' are as after, the others' as before. */
  ghost predicate CopiesSay(store: seq<FlagMap>, confs: map<string, NodeConfig>, rest: set<string>,
                            before: map<string, FlagMap>, after: map<string, FlagMap>)
  {
    forall n :: n in confs ==>
      && n in before && n in after && confs[n].flags.Some? && confs[n].flags.value < |store|
      && store[confs[n].flags.value] == if n in rest then before[n] else after[n]
  }

  ghost function FlagsNow(s: State): map<string, FlagMap>
    requires WellFormed(s)
  {
    map n | n in s.nodes :: FlagsOf(s, n)
  }

  ghost function FlagsWithPorts(s: State): map<string, FlagMap>
    requires WellFormed(s)
  {
    map n | n in s.nodes :: PortsNow(FlagsOf(s, n), s.nodes[n])
  }

  ghost function FlagsToSave(s: State): map<string, FlagMap>
    requires WellFormed(s)
  {
    map n | n in s.nodes :: PortsNow(FlagsOf(s, n), s.nodes[n]) - {LogDir}
  }

  lemma FlagsAt(s: State)
    requires WellFormed(s)
    ensures FlagsNow(s).Keys == FlagsWithPorts(s).Keys == FlagsToSave(s).Keys == s.nodes.Keys
    ensures forall n :: n in s.nodes ==>
              && n in FlagsNow(s) && n in FlagsWithPorts(s) && n in FlagsToSave(s)
              && FlagsWithPorts(s)[n] == PortsNow(FlagsNow(s)[n], s.nodes[n])
              && FlagsToSave(s)[n] == FlagsWithPorts(s)[n] - {LogDir}
  {
    hide PortsNow;
  }

  /** One copy is written; the others and the nodes' own maps are not touched. */
  lemma WriteCopy(s: State, store: seq<FlagMap>, confs: map<string, NodeConfig>, rest: set<string>,
                  before: map<string, FlagMap>, after: map<string, FlagMap>, n: string)
    requires WellFormed(s) && Copies(s, store, confs) && CopiesSay(store, confs, rest, before, after) && n in confs && n in rest
    ensures var store' := store[confs[n].flags.value := after[n]];
            Copies(s, store', confs) && CopiesSay(store', confs, rest - {n}, before, after)
  {
    var store' := store[confs[n].flags.value := after[n]];
    assert store'[..|s.store|] == store[..|s.store|];
    forall m | m in confs && m != n ensures confs[m].flags.value != confs[n].flags.value {
      assert confs[m].flags != confs[n].flags;
    }
  }

  lemma NextPhase(store: seq<FlagMap>, confs: map<string, NodeConfig>, before: map<string, FlagMap>,
                  after: map<string, FlagMap>, later: map<string, FlagMap>)
    requires CopiesSay(store, confs, {}, before, after) && confs.Keys <= later.Keys
    ensures CopiesSay(store, confs, confs.Keys, after, later)
  {
    assert forall n :: n in confs ==> n in later.Keys;
  }

  /** The node configs, each with a clone of its Flags map: nodes may share one. */
  method CopyConfigs(net: LocalNetwork) returns (confs: map<string, NodeConfig>)
    requires WellFormed(net.Contents())
    modifies net`store
    ensures confs.Keys == net.nodes.Keys && Copies(old(net.Contents()), net.store, confs)
    ensures forall n :: n in confs ==> n in net.nodes && FileSays(confs[n], net.nodes[n], true)
    ensures CopiesSay(net.store, confs, {}, FlagsNow(old(net.Contents())), FlagsNow(old(net.Contents())))
  {
    hide Copies, CopiesSay, FlagsNow, FileSays;
    ghost var s := net.Contents();
    NoCopies(s);
    confs := map[];
    var rest := net.nodes.Keys;
    while rest != {}
      invariant rest <= net.nodes.Keys && confs.Keys == net.nodes.Keys - rest && Copies(s, net.store, confs)
      invariant forall n :: n in confs ==> n in net.nodes && FileSays(confs[n], net.nodes[n], true)
      invariant CopiesSay(net.store, confs, {}, FlagsNow(s), FlagsNow(s))
      decreases rest
    {
      var n :| n in rest;
      rest := rest - {n};
      OneMoreCopy(s, net.store, confs, n);
      var cfg := net.nodes[n].cfg;
      net.store := net.store + [net.store[cfg.flags.value]];
      confs := confs[n := cfg.(flags := Some(|net.store| - 1))];
    }
  }

  lemma NoCopies(s: State)
    requires WellFormed(s)
    ensures Copies(s, s.store, map[]) && CopiesSay(s.store, map[], {}, FlagsNow(s), FlagsNow(s))
  {
  }

  lemma OneMoreCopy(s: State, store: seq<FlagMap>, confs: map<string, NodeConfig>, n: string)
    requires WellFormed(s) && Copies(s, store, confs) && CopiesSay(store, confs, {}, FlagsNow(s), FlagsNow(s))
    requires n in s.nodes && n !in confs
    ensures s.nodes[n].cfg.flags.value < |store|
    ensures var store' := store + [store[s.nodes[n].cfg.flags.value]];
            var c := s.nodes[n].cfg.(flags := Some(|store|));
            && Copies(s, store', confs[n := c]) && CopiesSay(store', confs[n := c], {}, FlagsNow(s), FlagsNow(s))
            && FileSays(c, s.nodes[n], true)
  {
    var a := s.nodes[n].cfg.flags.value;
    assert store[a] == store[..|s.store|][a];
    var store' := store + [store[a]];
    assert store'[..|s.store|] == store[..|s.store|];
  }

  /** The current ports are written into the copies. */
  method PinPorts(net: LocalNetwork, confs: map<string, NodeConfig>, ghost s: State)
    requires WellFormed(s) && net.nodes == s.nodes && Copies(s, net.store, confs) && confs.Keys == s.nodes.Keys
    requires CopiesSay(net.store, confs, {}, FlagsNow(s), FlagsNow(s))
    modifies net`store
    ensures Copies(s, net.store, confs) && CopiesSay(net.store, confs, {}, FlagsNow(s), FlagsWithPorts(s))
  {
    hide Copies, CopiesSay, PortsNow, FlagsNow, FlagsWithPorts, WellFormed;
    FlagsAt(s);
    NextPhase(net.store, confs, FlagsNow(s), FlagsNow(s), FlagsWithPorts(s));
    var rest := confs.Keys;
    while rest != {}
      invariant rest <= confs.Keys && Copies(s, net.store, confs) && CopiesSay(net.store, confs, rest, FlagsNow(s), FlagsWithPorts(s))
      decreases rest
    {
      var n :| n in rest;
      CopyAt(s, net.store, confs, rest, FlagsNow(s), FlagsWithPorts(s), n);
      WriteCopy(s, net.store, confs, rest, FlagsNow(s), FlagsWithPorts(s), n);
      rest := rest - {n};
      var a := confs[n].flags.value;
      ghost var before := net.store;
      net.store := net.store[a := net.store[a][HttpPort := Uint16(net.nodes[n].apiPort)]];
      net.store := net.store[a := net.store[a][StakingPort := Uint16(net.nodes[n].p2pPort)]];
      PortsWritten(before, a, net.nodes[n]);
    }
  }

  lemma PortsWritten(store: seq<FlagMap>, a: nat, node: Node)
    requires a < |store|
    ensures var store1 := store[a := store[a][HttpPort := Uint16(node.apiPort)]];
            store1[a := store1[a][StakingPort := Uint16(node.p2pPort)]] == store[a := PortsNow(store[a], node)]
  {
  }

  lemma CopyAt(s: State, store: seq<FlagMap>, confs: map<string, NodeConfig>, rest: set<string>,
               before: map<string, FlagMap>, after: map<string, FlagMap>, n: string)
    requires WellFormed(s) && Copies(s, store, confs) && CopiesSay(store, confs, rest, before, after) && n in confs && n in rest
    ensures n in s.nodes && confs[n].flags.Some? && confs[n].flags.value < |store| && n in before && n in after
    ensures store[confs[n].flags.value] == before[n]
  {
  }

  predicate FileSays(c: NodeConfig, node: Node, before: bool) {
    c.configFile == if before then node.cfg.configFile else WithoutLogs(node.cfg.configFile)
  }

  method DropLogFile(given: NodeConfig, node: Node) returns (c: NodeConfig)
    requires FileSays(given, node, true)
    ensures c == given.(configFile := c.configFile) && FileSays(c, node, false)
  {
    c := given;
    if c.configFile.Some? {
      c := c.(configFile := Some(c.configFile.value - {LogDir}));
    }
  }

  /** How far DropLogs got. */
  ghost predicate Dropping(s: State, store: seq<FlagMap>, confs: map<string, NodeConfig>, rest: set<string>)
    requires WellFormed(s)
  {
    && Copies(s, store, confs) && CopiesSay(store, confs, rest, FlagsWithPorts(s), FlagsToSave(s))
    && (forall n :: n in confs ==> n in s.nodes && FileSays(confs[n], s.nodes[n], n in rest))
  }

  /** The log directories are dropped from the copies and from the config files. */
  method DropLogs(net: LocalNetwork, given: map<string, NodeConfig>, ghost s: State) returns (confs: map<string, NodeConfig>)
    requires WellFormed(s) && net.nodes == s.nodes && Copies(s, net.store, given) && given.Keys == s.nodes.Keys
    requires forall n :: n in given ==> n in s.nodes && FileSays(given[n], s.nodes[n], true)
    requires CopiesSay(net.store, given, {}, FlagsNow(s), FlagsWithPorts(s))
    modifies net`store
    ensures confs.Keys == s.nodes.Keys && Dropping(s, net.store, confs, {})
  {
    hide Dropping, WellFormed, Copies, CopiesSay, FlagsNow, FlagsWithPorts, FileSays;
    StartDropping(s, net.store, given);
    confs := given;
    var rest := given.Keys;
    while rest != {}
      invariant rest <= confs.Keys == given.Keys && Dropping(s, net.store, confs, rest)
      decreases rest
    {
      var n :| n in rest;
      confs := DropLogsOf(net, confs, n, rest, s);
      rest := rest - {n};
    }
  }

  lemma StartDropping(s: State, store: seq<FlagMap>, confs: map<string, NodeConfig>)
    requires WellFormed(s) && Copies(s, store, confs) && confs.Keys == s.nodes.Keys
    requires forall n :: n in confs ==> n in s.nodes && FileSays(confs[n], s.nodes[n], true)
    requires CopiesSay(store, confs, {}, FlagsNow(s), FlagsWithPorts(s))
    ensures Dropping(s, store, confs, confs.Keys)
  {
    hide Copies, CopiesSay, FlagsNow, FlagsWithPorts, FlagsToSave, WellFormed, FileSays;
    FlagsAt(s);
    NextPhase(store, confs, FlagsNow(s), FlagsWithPorts(s), FlagsToSave(s));
  }

  method DropLogsOf(net: LocalNetwork, given: map<string, NodeConfig>, n: string, ghost rest: set<string>, ghost s: State)
    returns (confs: map<string, NodeConfig>)
    requires WellFormed(s) && net.nodes == s.nodes && Dropping(s, net.store, given, rest) && n in given && n in rest
    modifies net`store
    ensures confs.Keys == given.Keys && Dropping(s, net.store, confs, rest - {n})
  {
    hide Copies, CopiesSay, FlagsNow, FlagsWithPorts, FlagsToSave, WellFormed, FileSays;
    FlagsAt(s);
    CopyAt(s, net.store, given, rest, FlagsWithPorts(s), FlagsToSave(s), n);
    WriteCopy(s, net.store, given, rest, FlagsWithPorts(s), FlagsToSave(s), n);
    var c := DropLogFile(given[n], net.nodes[n]);
    var a := c.flags.value;
    net.store := net.store[a := net.store[a] - {LogDir}];
    NewFile(s, net.store, given, rest - {n}, FlagsWithPorts(s), FlagsToSave(s), n, c);
    confs := given[n := c];
  }

  lemma NewFile(s: State, store: seq<FlagMap>, confs: map<string, NodeConfig>, rest: set<string>,
                before: map<string, FlagMap>, after: map<string, FlagMap>, n: string, c: NodeConfig)
    requires WellFormed(s) && Copies(s, store, confs) && CopiesSay(store, confs, rest, before, after) && n in confs
    requires c == confs[n].(configFile := c.configFile)
    ensures Copies(s, store, confs[n := c]) && CopiesSay(store, confs[n := c], rest, before, after)
  {
  }

  /** The copies as they go into the file, in some order. */
  method WriteNodes(net: LocalNetwork, confs: map<string, NodeConfig>, ghost s: State)
    returns (nodes: seq<SavedNode>, ghost names: seq<string>)
    requires WellFormed(s) && Dropping(s, net.store, confs, {}) && confs.Keys == s.nodes.Keys
    ensures Elements(names) == s.nodes.Keys && |names| == |nodes|
    ensures forall i, j :: 0 <= i < j < |names| ==> names[i] != names[j]
    ensures forall i :: 0 <= i < |names| ==> names[i] in s.nodes && nodes[i] == SavedOf(s, names[i])
  {
    hide Copies, CopiesSay, PortsNow, FileSays, SavedOf, FlagsWithPorts, FlagsToSave, JsonMap;
    nodes, names := [], [];
    var rest := confs.Keys;
    while rest != {}
      invariant rest <= confs.Keys && |names| == |nodes| && Elements(names) == confs.Keys - rest
      invariant forall i, j :: 0 <= i < j < |names| ==> names[i] != names[j]
      invariant forall i :: 0 <= i < |names| ==> names[i] in s.nodes && nodes[i] == SavedOf(s, names[i])
      decreases rest
    {
      var n :| n in rest;
      rest := rest - {n};
      CopyIsSaved(s, net.store, confs, n);
      assert n !in Elements(names);
      assert Elements(names + [n]) == Elements(names) + {n};
      nodes := nodes + [SavedNode(confs[n].(flags := None), JsonMap(net.store[confs[n].flags.value]))];
      names := names + [n];
    }
  }

  lemma CopyIsSaved(s: State, store: seq<FlagMap>, confs: map<string, NodeConfig>, n: string)
    requires WellFormed(s) && Copies(s, store, confs) && CopiesSay(store, confs, {}, FlagsWithPorts(s), FlagsToSave(s))
    requires n in confs && n in s.nodes && FileSays(confs[n], s.nodes[n], false)
    ensures confs[n].flags.Some? && confs[n].flags.value < |store|
    ensures SavedOf(s, n) == SavedNode(confs[n].(flags := None), JsonMap(store[confs[n].flags.value]))
  {
  }

  /** SaveSnapshot, as a snapshot called name; taken says that there is one of that name
      already, and written that everything could be written. The network is stopped in any
      case that gets that far, and the maps of its nodes are left as they are. */
  method SaveSnapshot(net: LocalNetwork, name: string, taken: bool, codes: nat -> int, written: bool)
    returns (r: Result<SavedNetwork, Error>, ghost names: seq<string>)
    requires WellFormed(net.Contents())
    modifies net
    ensures |net.store| >= |old(net.store)| && net.store[..|old(net.store)|] == old(net.store)
    ensures net.Contents().(store := old(net.store)) == Do(old(net.Contents()), Save(name != "" && !taken, codes))
    ensures r.Ok? <==> !old(net.stopped) && name != "" && !taken && StopAll(old(net.Contents()), codes).err.None? && written
    ensures r.Ok? ==> IsSaved(old(net.Contents()), r.value, names)
    ensures r.Err? ==> r.error == if old(net.stopped) then NetworkStopped else if name == "" || taken then BadSnapshotName
                                  else if StopAll(old(net.Contents()), codes).err.Some? then NonZeroExit else SnapshotIO
  {
    hide Copies, CopiesSay, Dropping, FlagsNow, FlagsWithPorts, FlagsToSave, FileSays, StopAll, SavedOf, JsonMap;
    ghost var s := net.Contents();
    names := [];
    if net.stopped { r := Err(NetworkStopped); return; }
    if name == "" || taken { r := Err(BadSnapshotName); return; }
    var confs := CopyConfigs(net);
    PinPorts(net, confs, s);
    var flags := net.netFlags - {LogDir};
    confs := DropLogs(net, confs, s);
    DroppedIsLonger(s, net.store, confs);
    StopWithMaps(s, net.store, codes);
    var binaryPath, files := net.binaryPath, net.files;
    var err := net.StopNodes(codes);
    if err.Some? { r := Err(err.value); return; }
    if !written { r := Err(SnapshotIO); return; }
    var nodes;
    nodes, names := WriteNodes(net, confs, s);
    r := Ok(SavedNetwork(true, nodes, JsonMap(flags), binaryPath, files));
  }

  lemma DroppedIsLonger(s: State, store: seq<FlagMap>, confs: map<string, NodeConfig>)
    requires WellFormed(s) && Dropping(s, store, confs, {})
    ensures |store| >= |s.store| && store[..|s.store|] == s.store
  {
  }

  /** Stopping does not look at the flag maps. */
  lemma StopWithMaps(s: State, store: seq<FlagMap>, codes: nat -> int)
    requires WellFormed(s) && |store| >= |s.store|
    ensures var s' := s.(store := store);
            && WellFormed(s') && StopAll(s', codes).s == StopAll(s, codes).s.(store := store)
            && StopAll(s', codes).err == StopAll(s, codes).err && StopAll(s, codes).s.store == s.store
            && StopAll(s, codes).err in {None, Some(NonZeroExit)}
  {
    var s' := s.(store := store);
    assert SomeExitFails(s', codes) <==> SomeExitFails(s, codes);
  }

  // ---------- loadSnapshot ----------

  /** fixDeprecatedAvagoFlags, on the map itself. */
  method FixFlags(given: FlagMap) returns (r: Result<FlagMap, Error>)
    ensures r == FixDeprecated(given)
  {
    var flags := given;
    if WhitelistedSubnets in flags {
      if !flags[WhitelistedSubnets].Str? { return Err(WrongFlagType); }
      var v := flags[WhitelistedSubnets].s;
      if v != "" { flags := flags[TrackSubnets := Str(v)]; }
      flags := flags - {WhitelistedSubnets};
    }
    if BuildDir in flags {
      if !flags[BuildDir].Str? { return Err(WrongFlagType); }
      var v := flags[BuildDir].s;
      if v != "" { flags := flags[PluginDir := Str(JoinPath(v, "plugins"))]; }
      flags := flags - {BuildDir};
    }
    r := Ok(flags);
  }

  lemma OnlyWrongTypes()
    ensures forall flags :: FixDeprecated(flags).Err? ==> FixDeprecated(flags).error == WrongFlagType
  {
    hide JoinPath;
  }

  /** The flags of all nodes, fixed. */
  method FixAll(nodes: seq<SavedNode>) returns (r: Result<seq<FlagMap>, Error>)
    ensures r.Ok? <==> forall i :: 0 <= i < |nodes| ==> FixDeprecated(nodes[i].flags).Ok?
    ensures r.Err? ==> r.error == WrongFlagType
    ensures r.Ok? ==> |r.value| == |nodes| && forall i :: 0 <= i < |nodes| ==> FixDeprecated(nodes[i].flags) == Ok(r.value[i])
  {
    OnlyWrongTypes();
    hide FixDeprecated;
    var all: seq<FlagMap> := [];
    for i := 0 to |nodes|
      invariant |all| == i && forall k :: 0 <= k < i ==> FixDeprecated(nodes[k].flags) == Ok(all[k])
    {
      var fixed := FixFlags(nodes[i].flags);
      if fixed.Err? { return Err(fixed.error); }
      all := all + [fixed.value];
    }
    r := Ok(all);
  }

  /** The flags given for the load, the database directory and the plugin directory go into
      the flags of every node; copied(i) says that the database of the i-th was copied. */
  method SetFlags(rootDir: string, nodes: seq<SavedNode>, fixed: seq<FlagMap>, o: LoadOptions, copied: nat -> bool)
    returns (r: Result<seq<FlagMap>, Error>)
    requires |fixed| == |nodes| && forall i :: 0 <= i < |nodes| ==> FixDeprecated(nodes[i].flags) == Ok(fixed[i])
    ensures r.Ok? <==> forall i :: 0 <= i < |nodes| ==> copied(i)
    ensures r.Ok? ==> |r.value| == |nodes| && forall i :: 0 <= i < |nodes| ==> LoadedFlags(rootDir, nodes[i], o) == Ok(r.value[i])
    ensures r.Err? ==> r.error == SnapshotIO
  {
    hide FixDeprecated, JoinPath;
    var all := fixed;
    for i := 0 to |nodes|
      invariant |all| == |nodes| && forall k :: 0 <= k < |nodes| ==> all[k] == if k < i then fixed[k] + o.flags else fixed[k]
    {
      var merged := Overlay(all[i], o.flags);
      all := all[i := merged];
    }
    for i := 0 to |nodes|
      invariant |all| == |nodes| && forall k :: 0 <= k < i ==> copied(k)
      invariant forall k :: 0 <= k < |nodes| ==>
                  all[k] == if k < i then (fixed[k] + o.flags)[DbDir := Str(DbTarget(rootDir, nodes[k].cfg.name))]
                            else fixed[k] + o.flags
    {
      if !copied(i) { return Err(SnapshotIO); }
      all := all[i := all[i][DbDir := Str(JoinPath(JoinPath(rootDir, nodes[i].cfg.name), "db"))]];
    }
    if o.pluginDir != "" {
      ghost var before := all;
      for i := 0 to |nodes|
        invariant |all| == |nodes|
        invariant forall k :: 0 <= k < |nodes| ==> all[k] == if k < i then before[k][PluginDir := Str(o.pluginDir)] else before[k]
      {
        all := all[i := all[i][PluginDir := Str(o.pluginDir)]];
      }
    }
    r := Ok(all);
  }

  /** The node configs, with the binary and the config files given for the load. */
  method SetConfigs(nodes: seq<SavedNode>, o: LoadOptions, base: nat) returns (confs: seq<NodeConfig>)
    ensures |confs| == |nodes| && forall i :: 0 <= i < |nodes| ==> confs[i] == LoadedConfig(nodes[i], o, base + i)
  {
    confs := [];
    for i := 0 to |nodes|
      invariant |confs| == i && forall k :: 0 <= k < i ==> confs[k] == LoadedConfig(nodes[k], o, base + k)
    {
      var c := nodes[i].cfg.(flags := Some(base + i));
      if o.binaryPath != "" {
        c := c.(binaryPath := o.binaryPath);
      }
      var merged := Overlay(c.files, o.files);
      confs := confs + [c.(files := merged)];
    }
  }

  /** loadSnapshot; no snapshot means that it is not there or cannot be read. */
  method LoadSnapshot(net: LocalNetwork, found: Option<SavedNetwork>, o: LoadOptions, copied: nat -> bool,
                      envs: nat -> AddEnv, codes: nat -> int)
    returns (err: Option<Error>)
    requires WellFormed(net.Contents())
    modifies net
    ensures found.None? ==> err == Some(SnapshotIO) && net.Contents() == old(net.Contents())
    ensures found.Some? && !(Fixable(found.value) && forall i :: 0 <= i < |found.value.nodes| ==> copied(i)) ==>
              err == Some(if Fixable(found.value) then SnapshotIO else WrongFlagType) && net.Contents() == old(net.Contents())
    ensures found.Some? && Fixable(found.value) && (forall i :: 0 <= i < |found.value.nodes| ==> copied(i)) ==>
              var s1, conf := LoadedState(old(net.Contents()), found.value, o), LoadedNetwork(old(net.Contents()), found.value, o);
              && WellFormed(s1) && AllAllocated(s1, conf.nodes)
              && net.Contents() == Network.LoadConfig(s1, conf, envs, codes).s
              && err == Network.LoadConfig(s1, conf, envs, codes).err
  {
    OnlyWrongTypes();
    hide FixDeprecated, LoadedFlags, LoadedConfig, Network.LoadConfig;
    if found.None? { return Some(SnapshotIO); }
    var saved := found.value;
    var flags := FixFlags(saved.flags);
    if flags.Err? { return Some(flags.error); }
    var fixed := FixAll(saved.nodes);
    if fixed.Err? { return Some(fixed.error); }
    var all := SetFlags(net.rootDir, saved.nodes, fixed.value, o, copied);
    if all.Err? { return Some(all.error); }
    var confs := SetConfigs(saved.nodes, o, |net.store|);
    ghost var s1, conf := LoadedState(net.Contents(), saved, o), LoadedNetwork(net.Contents(), saved, o);
    LoadedShape(net.Contents(), saved, o);
    net.store := net.store + all.value;
    assert net.Contents() == s1;
    var c := NetConfig(saved.genesisOk, confs, flags.value, saved.binaryPath, saved.files);
    assert c == conf;
    err := net.LoadConfig(c, envs, codes);
  }

  lemma LoadedShape(s: State, saved: SavedNetwork, o: LoadOptions)
    requires WellFormed(s) && Fixable(saved)
    ensures WellFormed(LoadedState(s, saved, o)) && AllAllocated(LoadedState(s, saved, o), LoadedNetwork(s, saved, o).nodes)
  {
    hide FixDeprecated, LoadedFlags;
  }
}
