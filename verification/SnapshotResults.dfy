/** What is in a snapshot, and what a load makes of it, key by key (local/snapshot.go). */
module SnapshotResults {
  import opened Common
  import opened Strings
  import opened Paths
  import opened Flags
  import opened CommandLine
  import opened Network
  import opened NodeResults
  import opened TrackedSubnets
  import opened Snapshot

  /** What a value is in a file and after it was read: every number is a float. */
  predicate JsonSays(v: Value, w: Value) {
    match v
    case Int(i) => w == Float(i as real)
    case Uint16(p) => w == Float(p as real)
    case _ => w == v
  }

  /** The same keys but for the log directory, and the same values. */
  ghost predicate LogsDropped(m: FlagMap, n: FlagMap) {
    && (forall k :: k in n <==> k in m && k != LogDir)
    && (forall k :: k in n ==> n[k] == m[k])
  }

  /** Flags in a file: no log directory, the ports given, and the others as they were. */
  ghost predicate FlagsSaved(flags: FlagMap, node: Node, saved: FlagMap) {
    && (forall k :: k in saved <==> k == HttpPort || k == StakingPort || (k in flags && k != LogDir))
    && HttpPort in saved && saved[HttpPort] == Float(node.apiPort as real)
    && StakingPort in saved && saved[StakingPort] == Float(node.p2pPort as real)
    && (forall k :: k in flags && k in saved && k != HttpPort && k != StakingPort ==> JsonSays(flags[k], saved[k]))
  }

  /** A node as it is saved. */
  ghost predicate NodeSaved(s: State, name: string, n: SavedNode)
    requires WellFormed(s) && name in s.nodes
  {
    var c := s.nodes[name].cfg;
    && n.cfg.name == c.name && n.cfg.isBeacon == c.isBeacon && n.cfg.cert == c.cert && n.cfg.binaryPath == c.binaryPath
    && n.cfg.files == c.files && n.cfg.configFile.Some? == c.configFile.Some?
    && (c.configFile.Some? ==> LogsDropped(c.configFile.value, n.cfg.configFile.value))
    && FlagsSaved(FlagsOf(s, name), s.nodes[name], n.flags)
  }

  /** Every node is saved, once, with the network's own settings. */
  ghost predicate NetworkSaved(s: State, saved: SavedNetwork, names: seq<string>)
    requires WellFormed(s)
  {
    && saved.genesisOk && saved.binaryPath == s.binaryPath && saved.files == s.files && |names| == |saved.nodes|
    && (forall k :: k in saved.flags <==> k in s.netFlags && k != LogDir)
    && (forall k :: k in saved.flags ==> JsonSays(s.netFlags[k], saved.flags[k]))
    && (forall n :: n in s.nodes <==> n in names)
    && (forall i, j :: 0 <= i < j < |names| ==> names[i] != names[j])
    && (forall i :: 0 <= i < |names| ==> names[i] in s.nodes && NodeSaved(s, names[i], saved.nodes[i]))
  }

  lemma JsonIsSaid(v: Value)
    ensures JsonSays(v, Json(v))
  {
  }

  lemma NodeIsSaved(s: State, name: string)
    requires WellFormed(s) && name in s.nodes
    ensures NodeSaved(s, name, SavedOf(s, name))
  {
    hide Json, JsonSays;
    forall v ensures JsonSays(v, Json(v)) { JsonIsSaid(v); }
    var node, flags := s.nodes[name], FlagsOf(s, name);
    assert Json(Uint16(node.apiPort)) == Float(node.apiPort as real) by { PortsAreFloats(node.apiPort); }
    assert Json(Uint16(node.p2pPort)) == Float(node.p2pPort as real) by { PortsAreFloats(node.p2pPort); }
  }

  lemma PortsAreFloats(p: Port)
    ensures Json(Uint16(p)) == Float(p as real)
  {
  }

  lemma SnapshotMeans(s: State, saved: SavedNetwork, names: seq<string>)
    requires WellFormed(s) && IsSaved(s, saved, names)
    ensures NetworkSaved(s, saved, names)
  {
    hide SavedOf, NodeSaved, Json, JsonSays;
    forall v ensures JsonSays(v, Json(v)) { JsonIsSaid(v); }
    forall i | 0 <= i < |names| ensures NodeSaved(s, names[i], saved.nodes[i]) { NodeIsSaved(s, names[i]); }
    assert forall n :: n in names <==> n in Elements(names);
    assert forall n :: n in s.nodes <==> n in s.nodes.Keys;
  }

  // ---------- loading ----------

  /** The flags of a loaded node: the database directory and the plugin directory given, the
      flags given, and its saved flags, the first of these that says something. */
  ghost predicate FlagsLoaded(fixed: FlagMap, o: LoadOptions, dbDir: string, flags: FlagMap) {
    && (if o.pluginDir != "" then PluginDir in flags && flags[PluginDir] == Str(o.pluginDir)
        else if PluginDir in o.flags then SameAt(o.flags, flags, PluginDir)
        else SameAt(fixed, flags, PluginDir))
    && DbDir in flags && flags[DbDir] == Str(dbDir)
    && (forall k :: k != DbDir && k != PluginDir ==> if k in o.flags then SameAt(o.flags, flags, k) else SameAt(fixed, flags, k))
  }

  /** A node as it is loaded. */
  ghost predicate NodeLoaded(rootDir: string, n: SavedNode, o: LoadOptions, c: NodeConfig, flags: FlagMap) {
    && c.name == n.cfg.name && c.isBeacon == n.cfg.isBeacon && c.cert == n.cfg.cert && c.configFile == n.cfg.configFile
    && c.binaryPath == (if o.binaryPath != "" then o.binaryPath else n.cfg.binaryPath)
    && GivenFiles(n.cfg.files, o.files, c.files)
    && exists fixed :: FixedAs(n.flags, Ok(fixed)) && FlagsLoaded(fixed, o, JoinPath(JoinPath(rootDir, n.cfg.name), "db"), flags)
  }

  /** A load with any options: the network's own settings are the saved ones, and every node is
      loaded with a Flags map of its own. */
  lemma LoadMeans(s: State, saved: SavedNetwork, o: LoadOptions)
    requires Fixable(saved)
    ensures var r, conf := LoadedState(s, saved, o), LoadedNetwork(s, saved, o);
            && r == s.(store := r.store) && |r.store| == |s.store| + |saved.nodes| && r.store[..|s.store|] == s.store
            && conf.genesisOk == saved.genesisOk && conf.binaryPath == saved.binaryPath && conf.files == saved.files
            && FixedAs(saved.flags, Ok(conf.flags)) && |conf.nodes| == |saved.nodes|
            && (forall i :: 0 <= i < |saved.nodes| ==>
                  conf.nodes[i].flags == Some(|s.store| + i)
                  && NodeLoaded(s.rootDir, saved.nodes[i], o, conf.nodes[i], r.store[|s.store| + i]))
  {
    hide FixDeprecated, JoinPath, FixedAs;
    FixedFlagsAre(saved.flags);
    forall i | 0 <= i < |saved.nodes|
      ensures NodeLoaded(s.rootDir, saved.nodes[i], o, LoadedConfig(saved.nodes[i], o, |s.store| + i),
                         LoadedFlags(s.rootDir, saved.nodes[i], o).value)
    {
      NodeIsLoaded(s.rootDir, saved.nodes[i], o, |s.store| + i);
    }
  }

  lemma NodeIsLoaded(rootDir: string, n: SavedNode, o: LoadOptions, a: nat)
    requires FixDeprecated(n.flags).Ok?
    ensures NodeLoaded(rootDir, n, o, LoadedConfig(n, o, a), LoadedFlags(rootDir, n, o).value)
  {
    hide FixDeprecated, JoinPath, FixedAs;
    FixedFlagsAre(n.flags);
    var fixed := FixDeprecated(n.flags).value;
    assert FlagsLoaded(fixed, o, JoinPath(JoinPath(rootDir, n.cfg.name), "db"), LoadedFlags(rootDir, n, o).value);
  }
}
