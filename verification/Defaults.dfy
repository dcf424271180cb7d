/** The network's defaults stay in every node: addNode merges them into the node's own
    maps, and no later step takes them out (local/network.go:499-535). */
module Defaults {
  import opened Paths
  import opened Flags
  import opened Network
  import opened Runs
  import opened BeaconSet
  import opened Snapshot
  import opened SnapshotResults
  import opened TrackedSubnets

  /** An entry has a value for everything the network has a default for. */
  ghost predicate HasDefaults(s: State, node: Node) {
    && node.cfg.flags.Some? && node.cfg.flags.value < |s.store|
    && s.netFlags.Keys <= s.store[node.cfg.flags.value].Keys && s.files.Keys <= node.cfg.files.Keys
  }

  ghost predicate Merged(s: State) {
    forall n :: n in s.nodes ==> HasDefaults(s, s.nodes[n])
  }

  /** The defaults are the same, no map lost a key, and every entry is an old one with no
      fewer files, or a new one that has the defaults. */
  ghost predicate Grown(s: State, r: State) {
    && r.netFlags == s.netFlags && r.files == s.files && |r.store| >= |s.store|
    && (forall a :: 0 <= a < |s.store| ==> s.store[a].Keys <= r.store[a].Keys)
    && (forall n :: n in r.nodes ==>
          || (n in s.nodes && r.nodes[n].cfg.flags == s.nodes[n].cfg.flags && s.nodes[n].cfg.files.Keys <= r.nodes[n].cfg.files.Keys)
          || HasDefaults(r, r.nodes[n]))
  }

  lemma GrownKeepsMerged(s: State, r: State)
    requires Merged(s) && Grown(s, r)
    ensures Merged(r)
  {
    forall n | n in r.nodes ensures HasDefaults(r, r.nodes[n]) {
      if n in s.nodes { assert HasDefaults(s, s.nodes[n]); }
    }
  }

  lemma StoreGrows(s: State, c: NodeConfig)
    requires Allocated(s, c)
    ensures var store := StoreWithDefaults(s, c);
            && |store| >= |s.store| && (forall a :: 0 <= a < |s.store| ==> s.store[a].Keys <= store[a].Keys)
            && FlagsAddress(s, c) < |store| && s.netFlags.Keys <= store[FlagsAddress(s, c)].Keys
  {
  }

  lemma InstallGrows(s: State, m: State, x: Ready)
    requires m == s.(store := m.store, nextSuffix := m.nextSuffix) && |m.store| >= |s.store|
    requires forall a :: 0 <= a < |s.store| ==> s.store[a].Keys <= m.store[a].Keys
    requires x.cfg.flags.Some? && x.cfg.flags.value < |m.store| && s.netFlags.Keys <= m.store[x.cfg.flags.value].Keys
    requires s.files.Keys <= x.cfg.files.Keys
    ensures Grown(s, m) && Grown(s, Install(m, x).s)
  {
    hide Clashes;
  }

  lemma AddGrows(s: State, c: NodeConfig, e: AddEnv)
    requires Allocated(s, c)
    ensures Grown(s, AddNode(s, c, e).s)
  {
    hide Prepare, BuildArgs, Install, StoreWithDefaults;
    PrepareFacts(s, c, e);
    StoreGrows(s, c);
    var p := Prepare(s, c, e);
    if p.ready.Ok? {
      hide Grown;
      assert p.ready.value.cfg.files == s.files + c.files;
      InstallGrows(s, p.s, p.ready.value);
    }
  }

  lemma {:induction false} AddAllMerged(s: State, cs: seq<NodeConfig>, envs: nat -> AddEnv)
    requires AllAllocated(s, cs) && Merged(s)
    ensures Merged(AddAll(s, cs, envs).s)
    decreases |cs|
  {
    hide AddNode, Merged, Grown;
    if cs != [] {
      AddAllMerged(s, cs[..|cs| - 1], envs);
      var first := AddAll(s, cs[..|cs| - 1], envs);
      if first.err.None? {
        AddGrows(first.s, cs[|cs| - 1], envs(|cs| - 1));
        GrownKeepsMerged(first.s, AddNode(first.s, cs[|cs| - 1], envs(|cs| - 1)).s);
      }
    }
  }

  lemma LoadMerged(s: State, conf: NetConfig, envs: nat -> AddEnv, codes: nat -> int)
    requires WellFormed(s) && AllAllocated(s, conf.nodes) && s.nodes == map[]
    ensures Merged(LoadConfig(s, conf, envs, codes).s)
  {
    hide AddAll, StartOrder, ValidConfig;
    StartOrderAllocated(s, conf.nodes);
    AddAllMerged(WithNetDefaults(s, conf), StartOrder(conf.nodes), envs);
  }

  lemma AddMerged(s: State, c: NodeConfig, e: AddEnv)
    requires Allocated(s, c) && Merged(s)
    ensures Merged(AddNode(s, c, e).s)
  {
    hide AddNode, Merged, Grown;
    AddGrows(s, c, e);
    GrownKeepsMerged(s, AddNode(s, c, e).s);
  }

  lemma WriteMerged(s: State, a: nat, flags: FlagMap)
    requires a < |s.store| && s.store[a].Keys <= flags.Keys && Merged(s)
    ensures Merged(WriteFlags(s, a, flags))
  {
    GrownKeepsMerged(s, WriteFlags(s, a, flags));
  }

  lemma OverriddenMerged(s: State, name: string, o: Overrides)
    requires WellFormed(s) && name in s.nodes && Merged(s)
    ensures Merged(Overridden(s, name, o)) && WellFormed(Overridden(s, name, o))
  {
    hide WellFormed;
    assert s.nodes[name].cfg.flags.Some? && s.nodes[name].cfg.flags.value < |s.store| by { EntryAllocated(s, name); }
    var flags := s.store[s.nodes[name].cfg.flags.value];
    assert flags.Keys <= PinnedFor(OverriddenFlags(flags, o), s.nodes[name]).Keys;
    LocalNetworks.OverriddenKeepsShape(s, name, o);
    hide PinnedFor, OverriddenFlags;
    GrownKeepsMerged(s, Overridden(s, name, o));
  }

  lemma EntryAllocated(s: State, name: string)
    requires WellFormed(s) && name in s.nodes
    ensures s.nodes[name].cfg.flags.Some? && s.nodes[name].cfg.flags.value < |s.store|
  {
  }

  lemma FewerMerged(s: State, r: State)
    requires Merged(s) && r.netFlags == s.netFlags && r.files == s.files && |r.store| >= |s.store| && r.store[..|s.store|] == s.store
    requires forall n :: n in r.nodes ==> n in s.nodes && r.nodes[n].cfg == s.nodes[n].cfg
    ensures Merged(r)
  {
    forall a | 0 <= a < |s.store| ensures r.store[a] == s.store[a] { assert r.store[a] == r.store[..|s.store|][a]; }
    GrownKeepsMerged(s, r);
  }

  lemma SetFileMerged(s: State, name: string, file: (FileKind, string), text: string)
    requires WellFormed(s) && Merged(s)
    ensures Merged(Do(s, SetFile(name, file, text)))
  {
    GrownKeepsMerged(s, Do(s, SetFile(name, file, text)));
  }

  lemma SetFlagMerged(s: State, name: string, key: Key, value: Value)
    requires WellFormed(s) && Merged(s)
    ensures Merged(Do(s, SetFlag(name, key, value)))
  {
    hide Merged;
    if name in s.nodes {
      var a := s.nodes[name].cfg.flags.value;
      WriteMerged(s, a, s.store[a][key := value]);
    }
  }

  lemma ResumeMerged(s: State, name: string, e: AddEnv)
    requires WellFormed(s) && Merged(s)
    ensures Merged(ResumeNode(s, name, e).s)
  {
    hide AddNode, Merged;
    if name in s.nodes {
      var a := s.nodes[name].cfg.flags.value;
      WriteMerged(s, a, PinnedFor(s.store[a], s.nodes[name]));
      AddMerged(WriteFlags(s, a, PinnedFor(s.store[a], s.nodes[name])), s.nodes[name].cfg, e);
    }
  }

  lemma RemoveMerged(s: State, name: string, code: int)
    requires WellFormed(s) && Merged(s)
    ensures Merged(RemoveNode(s, name, code).s)
  {
    hide Merged, WithoutId;
    FewerMerged(s, RemoveNode(s, name, code).s);
  }

  lemma RestartMerged(s: State, name: string, o: Overrides, code: int, e: AddEnv)
    requires WellFormed(s) && Merged(s)
    ensures Merged(RestartNode(s, name, o, code, e).s)
  {
    hide AddNode, Merged, Overridden, RemoveNode;
    if name in s.nodes {
      OverriddenMerged(s, name, o);
      LocalNetworks.OverriddenKeepsShape(s, name, o);
      var s1 := Overridden(s, name, o);
      var c := RestartConfig(s1.nodes[name], o);
      if s1.nodes[name].paused {
        AddMerged(s1, c, e);
      } else {
        RemoveMerged(s1, name, code);
        RemoveFacts(s1, name, code);
        AddMerged(RemoveNode(s1, name, code).s, c, e);
      }
    }
  }

  lemma PauseMerged(s: State, name: string, code: int)
    requires WellFormed(s) && Merged(s)
    ensures Merged(PauseNode(s, name, code).s)
  {
    hide Merged, PauseNode;
    PauseFacts(s, name, code);
    var r := PauseNode(s, name, code).s;
    assert r.store[..|s.store|] == s.store;
    FewerMerged(s, r);
  }

  /** No step takes the defaults out of a node, if configurations are loaded into empty
      networks only. */
  lemma OpKeepsMerged(s: State, op: Op)
    requires WellFormed(s) && Legal(s, op) && Merged(s) && (op.Load? ==> s.nodes == map[])
    ensures Merged(Do(s, op))
  {
    hide AddNode, LoadConfig, RemoveNode, PauseNode, ResumeNode, RestartNode, StopAll, Merged, WriteFlags;
    match op
    case Load(conf, envs, codes) => LoadMerged(s, conf, envs, codes);
    case Add(c, e) => AddMerged(s, c, e);
    case AddUnchecked(c, e) => AddMerged(s, c, e);
    case Remove(name, code) => RemoveMerged(s, name, code);
    case Pause(name, code) => PauseMerged(s, name, code);
    case Resume(name, e) => ResumeMerged(s, name, e);
    case Restart(name, o, code, e) => RestartMerged(s, name, o, code, e);
    case SetFlag(name, key, value) => SetFlagMerged(s, name, key, value);
    case SetFile(name, file, text) => SetFileMerged(s, name, file, text);
    case StopLocked(codes) => NoNodesMerged(StopAll(s, codes).s, s, codes);
    case Save(proceeds, codes) => NoNodesMerged(StopAll(s, codes).s, s, codes);
    case NewFlags(m) => FewerMerged(s, Do(s, op));
    case CloseStop => FewerMerged(s, Do(s, op));
    case Exit(pid, code) => FewerMerged(s, Do(s, op));
  }

  lemma NoNodesMerged(r: State, s: State, codes: nat -> int)
    requires WellFormed(s) && r == StopAll(s, codes).s
    ensures Merged(r)
  {
  }

  /** So a round trip gives a node its own flags and files back. */
  lemma RoundTripIsExact(s: State, r: State, name: string, rootDir: string)
    requires WellFormed(s) && WellFormed(r) && Merged(s) && name in s.nodes && name in r.nodes && CameBack(s, r, name, rootDir)
    ensures BackExactly(s, r, name, rootDir)
  {
    hide JoinPath, Json, JsonSays;
    forall v ensures JsonSays(v, Json(v)) { JsonIsSaid(v); }
    PortsAreFloats(s.nodes[name].apiPort);
    PortsAreFloats(s.nodes[name].p2pPort);
    assert HasDefaults(s, s.nodes[name]);
    assert s.files + s.nodes[name].cfg.files == s.nodes[name].cfg.files;
    assert s.netFlags + FlagsOf(s, name) == FlagsOf(s, name);
  }

  // ---------- over runs ----------

  /** Configurations are only loaded while there are no nodes, as the source does. */
  ghost predicate LoadsIntoEmpty(s: State, ops: seq<Op>)
    requires Inv(s) && Possible(s, ops)
    decreases |ops|
  {
    ops == [] || ((ops[0].Load? ==> s.nodes == map[]) && (OpKeepsInv(s, ops[0]); LoadsIntoEmpty(Do(s, ops[0]), ops[1..])))
  }

  lemma {:induction false} RunKeepsMerged(s: State, ops: seq<Op>)
    requires Inv(s) && Possible(s, ops) && LoadsIntoEmpty(s, ops) && Merged(s)
    ensures Merged(Run(s, ops))
    decreases |ops|
  {
    hide Do, Merged, Owned;
    if ops != [] {
      OpKeepsInv(s, ops[0]);
      OpKeepsMerged(s, ops[0]);
      RunKeepsMerged(Do(s, ops[0]), ops[1..]);
    }
  }

  /** What a node has after a round trip, key by key. */
  ghost predicate BackExactly(s: State, r: State, name: string, rootDir: string)
    requires WellFormed(s) && WellFormed(r) && name in s.nodes && name in r.nodes
  {
    && (var c, d := s.nodes[name].cfg, r.nodes[name].cfg;
        && d.name == c.name && d.isBeacon == c.isBeacon && d.cert == c.cert && d.files == c.files
        && d.configFile.Some? == c.configFile.Some? && (c.configFile.Some? ==> LogsDropped(c.configFile.value, d.configFile.value))
        && d.binaryPath == if c.binaryPath == "" then s.binaryPath else c.binaryPath)
    && (var was, now := FlagsOf(s, name), FlagsOf(r, name);
        && now.Keys == was.Keys - {LogDir} + {DbDir, HttpPort, StakingPort}
        && (forall k :: k in was && k !in {LogDir, DbDir, HttpPort, StakingPort} ==> JsonSays(was[k], now[k]))
        && now[HttpPort] == Float(s.nodes[name].apiPort as real) && now[StakingPort] == Float(s.nodes[name].p2pPort as real)
        && now[DbDir] == Str(JoinPath(JoinPath(rootDir, name), "db")))
  }

  /** Whatever has happened to a network since it was made: saved and loaded again, every node
      is back with its identity, its ports, and exactly its own flags and files. */
  lemma RunRoundTrip(site: Site, rootDir: string, ops: seq<Op>, f: State, saved: SavedNetwork, names: seq<string>,
                     envs: nat -> AddEnv, codes: nat -> int)
    requires Possible(NewNetwork(site, rootDir), ops) && LoadsIntoEmpty(NewNetwork(site, rootDir), ops) && !site.reassign
    requires var s := Run(NewNetwork(site, rootDir), ops);
             (RunKeepsInv(NewNetwork(site, rootDir), ops); IsSaved(s, saved, names) && UpToDate(s))
    requires WellFormed(f) && f.nodes == map[] && f.site == site
    ensures Fixable(saved) && AllAllocated(LoadedState(f, saved, NO_OPTIONS), LoadedNetwork(f, saved, NO_OPTIONS).nodes)
    ensures LoadBack(f, saved, envs, codes).err.None? ==>
              var s, r := Run(NewNetwork(site, rootDir), ops), LoadBack(f, saved, envs, codes).s;
              && WellFormed(s) && WellFormed(r) && r.nodes.Keys == s.nodes.Keys
              && (forall n :: n in s.nodes ==> CameBack(s, r, n, f.rootDir) && BackExactly(s, r, n, f.rootDir))
  {
    hide LoadBack, LoadedState, LoadedNetwork, IsSaved, Fixable, UpToDate, CameBack, BackExactly, Run, Possible, LoadsIntoEmpty;
    var s0 := NewNetwork(site, rootDir);
    assert Inv(s0) && Identified(s0) && Merged(s0);
    RunKeepsInv(s0, ops);
    RunIdentified(s0, ops);
    RunKeepsMerged(s0, ops);
    var s := Run(s0, ops);
    hide Identified, Merged, Inv, WellFormed;
    RoundTrip(s, f, saved, names, envs, codes);
    if LoadBack(f, saved, envs, codes).err.None? {
      var r := LoadBack(f, saved, envs, codes).s;
      assert forall n :: n in s.nodes ==> n in r.nodes.Keys;
      forall n | n in s.nodes ensures BackExactly(s, r, n, f.rootDir) { RoundTripIsExact(s, r, n, f.rootDir); }
    }
  }
}
