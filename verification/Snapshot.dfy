/** Saving a network and loading it again (local/snapshot.go). */
module Snapshot {
  import opened Common
  import opened Strings
  import opened Paths
  import opened Flags
  import opened Network
  import opened BeaconSet
  import opened TrackedSubnets

  // ---------- the file ----------

  /** What a value is after it was written as JSON and read again: all numbers are floats. */
  function Json(v: Value): Value {
    match v
    case Int(i) => Float(i as real)
    case Uint16(p) => Float(p as real)
    case _ => v
  }

  function JsonMap(m: FlagMap): FlagMap {
    map k | k in m :: Json(m[k])
  }

  /** A node in network.json; its flags are part of the file, and cfg.flags is None. */
  datatype SavedNode = SavedNode(cfg: NodeConfig, flags: FlagMap)

  /** network.json. */
  datatype SavedNetwork = SavedNetwork(
    genesisOk: bool, nodes: seq<SavedNode>, flags: FlagMap, binaryPath: string, files: ConfigFiles)

  /** The flags with the ports the node runs on, and without a log directory. */
  function PortsNow(flags: FlagMap, node: Node): FlagMap {
    flags[HttpPort := Uint16(node.apiPort)][StakingPort := Uint16(node.p2pPort)]
  }

  function WithoutLogs(file: Option<FlagMap>): Option<FlagMap> {
    if file.Some? then Some(file.value - {LogDir}) else None
  }

  /** How a node is saved. */
  ghost function SavedOf(s: State, name: string): SavedNode
    requires WellFormed(s) && name in s.nodes
  {
    var node := s.nodes[name];
    SavedNode(node.cfg.(flags := None, configFile := WithoutLogs(node.cfg.configFile)),
              JsonMap(PortsNow(FlagsOf(s, name), node) - {LogDir}))
  }

  /** A network is saved with its nodes in some order. */
  ghost predicate IsSaved(s: State, saved: SavedNetwork, names: seq<string>)
    requires WellFormed(s)
  {
    && saved.genesisOk && saved.flags == JsonMap(s.netFlags - {LogDir}) && saved.binaryPath == s.binaryPath && saved.files == s.files
    && Elements(names) == s.nodes.Keys && |names| == |saved.nodes|
    && (forall i, j :: 0 <= i < j < |names| ==> names[i] != names[j])
    && (forall i :: 0 <= i < |names| ==> names[i] in s.nodes && saved.nodes[i] == SavedOf(s, names[i]))
  }

  // ---------- loading ----------

  /** The optional replacements of a load; "" and the empty maps change nothing. */
  datatype LoadOptions = LoadOptions(binaryPath: string, pluginDir: string, files: ConfigFiles, flags: FlagMap)

  const NO_OPTIONS := LoadOptions("", "", map[], map[])

  /** Where the database of a node goes. */
  function DbTarget(rootDir: string, name: string): string {
    JoinPath(JoinPath(rootDir, name), "db")
  }

  /** The flags a node is loaded with. */
  function LoadedFlags(rootDir: string, n: SavedNode, o: LoadOptions): Result<FlagMap, Error> {
    match FixDeprecated(n.flags)
    case Err(x) => Err(x)
    case Ok(fixed) =>
      var flags := (fixed + o.flags)[DbDir := Str(DbTarget(rootDir, n.cfg.name))];
      Ok(if o.pluginDir != "" then flags[PluginDir := Str(o.pluginDir)] else flags)
  }

  /** The configuration a node is loaded with; its flags are at address a. */
  function LoadedConfig(n: SavedNode, o: LoadOptions, a: nat): NodeConfig {
    n.cfg.(flags := Some(a), files := n.cfg.files + o.files,
           binaryPath := if o.binaryPath != "" then o.binaryPath else n.cfg.binaryPath)
  }

  lemma FixNothing(flags: FlagMap)
    requires BuildDir !in flags && WhitelistedSubnets !in flags
    ensures FixDeprecated(flags) == Ok(flags)
  {
  }

  // ---------- starting a saved node ----------

  /** A configuration says what a node was: its identity and its ports. */
  ghost predicate Fits(s: State, c: NodeConfig, was: map<string, Node>) {
    && c.flags.Some? && c.flags.value < |s.store| && c.cert != "" && c.name != "" && c.name in was
    && (var flags, node := s.store[c.flags.value], was[c.name];
        && s.site.idOf(c.cert) == Some(node.id)
        && HttpPort in flags && flags[HttpPort] == Float(node.apiPort as real)
        && StakingPort in flags && flags[StakingPort] == Float(node.p2pPort as real))
  }

  /** The node is back. */
  ghost predicate Restored(s: State, r: State, c: NodeConfig, was: map<string, Node>)
    requires Fits(s, c, was)
  {
    && c.name in r.nodes && c.flags.value < |r.store|
    && r.store[c.flags.value] == s.netFlags + s.store[c.flags.value]
    && (var node, before := r.nodes[c.name], was[c.name];
        && node.cfg == WithDefaults(s, c) && !node.paused
        && node.id == before.id && node.apiPort == before.apiPort && node.p2pPort == before.p2pPort)
  }

  /** Nothing else has changed but the processes and the beacons. */
  ghost predicate OnlyAdded(s: State, r: State, names: set<string>, addresses: set<nat>) {
    && r == s.(nodes := r.nodes, beacons := r.beacons, procs := r.procs, store := r.store)
    && |r.store| == |s.store| && (forall a :: 0 <= a < |s.store| && a !in addresses ==> r.store[a] == s.store[a])
    && r.nodes.Keys == s.nodes.Keys + names
    && (forall n :: n in s.nodes && n !in names ==> r.nodes[n] == s.nodes[n])
  }

  lemma AddRestores(s: State, c: NodeConfig, e: AddEnv, was: map<string, Node>)
    requires Fits(s, c, was) && !s.site.reassign && AddNode(s, c, e).err.None?
    ensures Restored(s, AddNode(s, c, e).s, c, was)
    ensures OnlyAdded(s, AddNode(s, c, e).s, {c.name}, {c.flags.value})
  {
    hide Prepare, BuildArgs, Clashes, OnlyAdded, Restored, StoreWithDefaults;
    PrepareFacts(s, c, e);
    var p := Prepare(s, c, e);
    Entered(s, c, e, was, p.s, p.ready.value, AddNode(s, c, e).s);
  }

  /** What entering a node that is ready makes of the network. */
  lemma Entered(s: State, c: NodeConfig, e: AddEnv, was: map<string, Node>, s': State, x: Ready, r: State)
    requires Fits(s, c, was) && !s.site.reassign && ReadyFor(s, c, e, s', x) && s'.store == StoreWithDefaults(s, c)
    requires r == s.(nodes := s.nodes[x.cfg.name := NodeOf(x, |s.procs|)], store := s'.store, beacons := r.beacons, procs := r.procs)
    ensures Restored(s, r, c, was) && OnlyAdded(s, r, {c.name}, {c.flags.value})
  {
    hide BuildArgs, OnlyAdded;
    var a := c.flags.value;
    PortsAreKept(s.site, s.beacons, s.netFlags + s.store[a], c.configFile, JoinPath(s.rootDir, c.name), e.args,
                 was[c.name].apiPort, was[c.name].p2pPort);
    assert x.cfg == WithDefaults(s, c);
    hide ReadyFor;
    assert s'.store == s.store[a := s.netFlags + s.store[a]];
    OneAdded(s, r, c.name, a);
  }

  lemma OneAdded(s: State, r: State, name: string, a: nat)
    requires a < |s.store| && name in r.nodes && r.nodes == s.nodes[name := r.nodes[name]]
    requires |r.store| == |s.store| && r.store == s.store[a := r.store[a]]
    requires r == s.(nodes := r.nodes, store := r.store, beacons := r.beacons, procs := r.procs)
    ensures OnlyAdded(s, r, {name}, {a})
  {
  }

  lemma PortsAreKept(site: Site, beacons: seq<Beacon>, flags: FlagMap, file: Option<FlagMap>, nodeDir: string, e: ArgsEnv,
                     api: Port, p2p: Port)
    requires !site.reassign && BuildArgs(site, beacons, flags, file, nodeDir, e).Ok?
    requires HttpPort in flags && flags[HttpPort] == Float(api as real)
    requires StakingPort in flags && flags[StakingPort] == Float(p2p as real)
    ensures var r := BuildArgs(site, beacons, flags, file, nodeDir, e).value; r.apiPort == api && r.p2pPort == p2p
  {
    hide Settings, Layers, ForVersion, JoinPath;
    var file' := if file.Some? then file.value else map[];
    SettingsFollowFlags(site, flags, file', nodeDir, e);
    ConfiguredPortIsKept(flags, file', HttpPort, e.api, api);
    ConfiguredPortIsKept(flags, file', StakingPort, e.p2p, p2p);
  }

  // ---------- nothing is in the way ----------

  /** The outside lets a node start: its ports are free. */
  predicate Favorable(e: AddEnv) {
    && e.signingKeyOk && e.dirOk && e.configParses && e.versionKnown && e.launches
    && e.args.filesWritten && e.args.api.free && e.args.p2p.free
  }

  predicate StringAt(flags: FlagMap, file: FlagMap, k: Key) {
    if k in flags then flags[k].Str? else k in file ==> file[k].Str?
  }

  /** What buildArgs reads as a string is a string. */
  predicate Typed(flags: FlagMap, file: Option<FlagMap>) {
    var file' := if file.Some? then file.value else map[];
    && StringAt(flags, file', HttpHost) && StringAt(flags, file', DataDir) && StringAt(flags, file', PluginDir)
    && StringAt(flags, file', DbDir) && StringAt(flags, file', LogDir)
  }

  lemma EntryFound(flags: FlagMap, file: FlagMap, k: Key, default: string)
    requires StringAt(flags, file, k)
    ensures GetConfigEntry(flags, file, k, default).Ok?
  {
  }

  lemma BuildArgsSucceeds(site: Site, beacons: seq<Beacon>, flags: FlagMap, file: Option<FlagMap>, nodeDir: string, e: ArgsEnv,
                          api: Port, p2p: Port)
    requires !site.reassign && Typed(flags, file) && e.filesWritten && e.api.free && e.p2p.free
    requires HttpPort in flags && flags[HttpPort] == Float(api as real)
    requires StakingPort in flags && flags[StakingPort] == Float(p2p as real)
    ensures BuildArgs(site, beacons, flags, file, nodeDir, e).Ok?
  {
    hide Layers, ForVersion, JoinPath, GetConfigEntry, GetPort, StringAt;
    var file' := if file.Some? then file.value else map[];
    ConfiguredPortIsKept(flags, file', HttpPort, e.api, api);
    ConfiguredPortIsKept(flags, file', StakingPort, e.p2p, p2p);
    EntryFound(flags, file', HttpHost, "");
    EntryFound(flags, file', DataDir, nodeDir);
    EntryFound(flags, file', PluginDir, "");
    var dataDir := GetConfigEntry(flags, file', DataDir, nodeDir).value;
    EntryFound(flags, file', DbDir, JoinPath(dataDir, "db"));
    EntryFound(flags, file', LogDir, JoinPath(dataDir, "logs"));
  }

  lemma ResolveSucceeds(s: State, c: NodeConfig, e: AddEnv)
    requires c.flags.Some? && c.flags.value < |s.store| && Favorable(e) && s.site.idOf(c.cert).Some?
    requires BuildArgs(s.site, s.beacons, s.store[c.flags.value], c.configFile, JoinPath(s.rootDir, c.name), e.args).Ok?
    ensures Resolve(s, c, e).Ok?
  {
    hide BuildArgs;
  }

  lemma PrepareSucceeds(s: State, c: NodeConfig, e: AddEnv, was: map<string, Node>)
    requires Fits(s, c, was) && !s.site.reassign && (c.name in s.nodes ==> s.nodes[c.name].paused) && Favorable(e)
    requires Typed(s.netFlags + s.store[c.flags.value], c.configFile)
    ensures Prepare(s, c, e).ready.Ok?
  {
    hide Resolve, BuildArgs, JoinPath, Typed, Favorable;
    assert e.signingKeyOk by { FavorableKey(e); }
    var s1 := s.(store := StoreWithDefaults(s, c));
    var c1 := WithDefaults(s, c);
    FavorableArgs(e);
    BuildArgsSucceeds(s.site, s.beacons, s.netFlags + s.store[c.flags.value], c.configFile, JoinPath(s.rootDir, c.name),
                      e.args, was[c.name].apiPort, was[c.name].p2pPort);
    ResolveSucceeds(s1, c1, e);
  }

  lemma FavorableKey(e: AddEnv)
    requires Favorable(e)
    ensures e.signingKeyOk
  {
  }

  lemma FavorableArgs(e: AddEnv)
    requires Favorable(e)
    ensures e.args.filesWritten && e.args.api.free && e.args.p2p.free
  {
  }

  /** A saved node can be started next to the others. */
  lemma AddSucceeds(s: State, c: NodeConfig, e: AddEnv, was: map<string, Node>)
    requires Fits(s, c, was) && !s.site.reassign && c.name !in s.nodes && Favorable(e)
    requires Typed(s.netFlags + s.store[c.flags.value], c.configFile)
    requires !Clashes(s.beacons, PairOf(was[c.name]))
    ensures AddNode(s, c, e).err.None?
  {
    hide Prepare, BuildArgs, Clashes, Typed, Favorable;
    PrepareSucceeds(s, c, e, was);
    PrepareFacts(s, c, e);
    var a := c.flags.value;
    PortsAreKept(s.site, s.beacons, s.netFlags + s.store[a], c.configFile, JoinPath(s.rootDir, c.name), e.args,
                 was[c.name].apiPort, was[c.name].p2pPort);
  }

  // ---------- all nodes ----------

  ghost function NamesOf(cs: seq<NodeConfig>): set<string> {
    set c | c in cs :: c.name
  }

  ghost function AddressesOf(cs: seq<NodeConfig>): set<nat> {
    set c | c in cs && c.flags.Some? :: c.flags.value
  }

  /** No two configurations have a name or a Flags map in common. */
  ghost predicate Separate(cs: seq<NodeConfig>) {
    forall i, j :: 0 <= i < j < |cs| ==> cs[i].name != cs[j].name && cs[i].flags != cs[j].flags
  }

  /** A list of saved nodes that were one network. */
  ghost predicate FitsAll(s: State, cs: seq<NodeConfig>, was: map<string, Node>) {
    Separate(cs) && forall i :: 0 <= i < |cs| ==> Fits(s, cs[i], was)
  }

  lemma FrontOf(s: State, cs: seq<NodeConfig>, was: map<string, Node>)
    requires cs != [] && FitsAll(s, cs, was)
    ensures var m := |cs| - 1;
            && FitsAll(s, cs[..m], was) && AllAllocated(s, cs[..m]) && AllAllocated(s, cs)
            && cs[m].name !in NamesOf(cs[..m]) && cs[m].flags.value !in AddressesOf(cs[..m])
            && NamesOf(cs) == NamesOf(cs[..m]) + {cs[m].name}
            && AddressesOf(cs) == AddressesOf(cs[..m]) + {cs[m].flags.value}
  {
    var m := |cs| - 1;
    assert cs == cs[..m] + [cs[m]];
    assert Fits(s, cs[m], was);
    forall i | 0 <= i < m ensures Fits(s, cs[..m][i], was) && cs[i].flags.Some? && Allocated(s, cs[i]) {
      assert Fits(s, cs[i], was) && cs[..m][i] == cs[i];
    }
  }

  lemma FitsLater(s: State, r: State, c: NodeConfig, was: map<string, Node>, names: set<string>, addresses: set<nat>)
    requires Fits(s, c, was) && OnlyAdded(s, r, names, addresses) && c.flags.value !in addresses
    ensures Fits(r, c, was) && r.store[c.flags.value] == s.store[c.flags.value]
  {
  }

  lemma RestoredFrom(s: State, m: State, r: State, c: NodeConfig, was: map<string, Node>, names: set<string>, addresses: set<nat>)
    requires Fits(s, c, was) && Fits(m, c, was) && OnlyAdded(s, m, names, addresses) && c.flags.value !in addresses
    requires Restored(m, r, c, was)
    ensures Restored(s, r, c, was)
  {
    assert WithDefaults(m, c) == WithDefaults(s, c);
  }

  lemma RestoredLater(s: State, m: State, r: State, c: NodeConfig, was: map<string, Node>, names: set<string>, addresses: set<nat>)
    requires Fits(s, c, was) && Restored(s, m, c, was) && OnlyAdded(m, r, names, addresses)
    requires c.name !in names && c.flags.value !in addresses
    ensures Restored(s, r, c, was)
  {
    hide WithDefaults;
    assert c.name in m.nodes.Keys;
  }

  lemma OnlyAddedTwice(s: State, m: State, r: State, names: set<string>, addresses: set<nat>, name: string, a: nat)
    requires OnlyAdded(s, m, names, addresses) && OnlyAdded(m, r, {name}, {a})
    ensures OnlyAdded(s, r, names + {name}, addresses + {a})
  {
    forall n | n in s.nodes && n !in names + {name} ensures r.nodes[n] == s.nodes[n] {
      assert n in m.nodes.Keys;
    }
  }

  /** Every node of the list is back, and nothing else is. */
  lemma {:induction false} AddAllRestores(s: State, cs: seq<NodeConfig>, envs: nat -> AddEnv, was: map<string, Node>)
    requires FitsAll(s, cs, was) && AllAllocated(s, cs) && !s.site.reassign && AddAll(s, cs, envs).err.None?
    ensures var r := AddAll(s, cs, envs).s;
            OnlyAdded(s, r, NamesOf(cs), AddressesOf(cs)) && forall i :: 0 <= i < |cs| ==> Restored(s, r, cs[i], was)
    decreases |cs|
  {
    hide AddNode, Fits, Restored, OnlyAdded, NamesOf, AddressesOf;
    if cs == [] {
      NothingAdded(s);
    } else {
      var m := |cs| - 1;
      var front, c := cs[..m], cs[m];
      FrontOf(s, cs, was);
      AddAllRestores(s, front, envs, was);
      var first, r := AddAll(s, front, envs).s, AddAll(s, cs, envs).s;
      FitsLater(s, first, c, was, NamesOf(front), AddressesOf(front));
      SiteKept(s, first, NamesOf(front), AddressesOf(front));
      AddRestores(first, c, envs(m), was);
      RestoredFrom(s, first, r, c, was, NamesOf(front), AddressesOf(front));
      OnlyAddedTwice(s, first, r, NamesOf(front), AddressesOf(front), c.name, c.flags.value);
      forall i | 0 <= i < m ensures Restored(s, r, cs[i], was) {
        assert front[i] == cs[i];
        HasAddress(s, cs, was, i);
        RestoredLater(s, first, r, cs[i], was, {c.name}, {c.flags.value});
      }
    }
  }

  lemma HasAddress(s: State, cs: seq<NodeConfig>, was: map<string, Node>, i: nat)
    requires FitsAll(s, cs, was) && i < |cs| - 1
    ensures cs[i].flags.Some? && cs[|cs| - 1].flags.Some? && cs[i].flags.value != cs[|cs| - 1].flags.value
    ensures cs[i].name != cs[|cs| - 1].name
  {
    assert Fits(s, cs[i], was) && Fits(s, cs[|cs| - 1], was);
  }

  lemma NothingAdded(s: State)
    ensures OnlyAdded(s, s, NamesOf([]), AddressesOf([]))
  {
  }

  lemma SiteKept(s: State, r: State, names: set<string>, addresses: set<nat>)
    requires OnlyAdded(s, r, names, addresses)
    ensures r.site == s.site && r.netFlags == s.netFlags && forall n :: n in r.nodes <==> n in s.nodes || n in names
  {
    assert forall n :: n in r.nodes <==> n in r.nodes.Keys;
  }

  /** Every node of the list can be started. */
  ghost predicate Startable(s: State, cs: seq<NodeConfig>, envs: nat -> AddEnv) {
    forall i :: 0 <= i < |cs| ==>
      Favorable(envs(i)) && cs[i].flags.Some? && cs[i].flags.value < |s.store|
      && Typed(s.netFlags + s.store[cs[i].flags.value], cs[i].configFile)
  }

  /** The nodes that are back are as distinct as they were. */
  lemma BackAreDistinct(s: State, r: State, cs: seq<NodeConfig>, was: map<string, Node>)
    requires FitsAll(s, cs, was) && Distinct(was) && s.nodes == map[] && OnlyAdded(s, r, NamesOf(cs), AddressesOf(cs))
    requires forall i :: 0 <= i < |cs| ==> Restored(s, r, cs[i], was)
    ensures Distinct(r.nodes) && forall n :: n in r.nodes ==> n in was && PairOf(r.nodes[n]) == PairOf(was[n])
  {
    hide WithDefaults;
    forall n | n in r.nodes ensures n in was && PairOf(r.nodes[n]) == PairOf(was[n]) {
      assert n in r.nodes.Keys;
      var c :| c in cs && c.name == n;
      var i :| 0 <= i < |cs| && cs[i] == c;
      assert Fits(s, cs[i], was) && Restored(s, r, cs[i], was);
    }
  }

  lemma {:induction false} AddAllSucceeds(s: State, cs: seq<NodeConfig>, envs: nat -> AddEnv, was: map<string, Node>)
    requires FitsAll(s, cs, was) && AllAllocated(s, cs) && !s.site.reassign && Distinct(was)
    requires s.nodes == map[] && s.beacons == [] && Startable(s, cs, envs)
    ensures AddAll(s, cs, envs).err.None?
    decreases |cs|
  {
    hide AddNode, Fits, Restored, OnlyAdded, NamesOf, AddressesOf, Distinct, Agrees, Typed, Favorable, Clashes;
    if cs != [] {
      var m := |cs| - 1;
      var front, c := cs[..m], cs[m];
      FrontOf(s, cs, was);
      AddAllSucceeds(s, front, envs, was);
      AddAllRestores(s, front, envs, was);
      var first := AddAll(s, front, envs).s;
      FitsLater(s, first, c, was, NamesOf(front), AddressesOf(front));
      SiteKept(s, first, NamesOf(front), AddressesOf(front));
      BackAreDistinct(s, first, front, was);
      NoNodesAgree(s);
      AddAllAgrees(s, front, envs);
      NewPairIsNew(first, c, was);
      AddSucceeds(first, c, envs(m), was);
    }
  }

  lemma NewPairIsNew(s: State, c: NodeConfig, was: map<string, Node>)
    requires Agrees(s) && Distinct(was) && c.name in was && c.name !in s.nodes
    requires forall n :: n in s.nodes ==> n in was && PairOf(s.nodes[n]) == PairOf(was[n])
    ensures !Clashes(s.beacons, PairOf(was[c.name]))
  {
    hide Agrees, Clashes;
    var b := PairOf(was[c.name]);
    forall n | n in s.nodes ensures s.nodes[n].id != b.id && s.nodes[n].p2pPort != b.port {
      assert PairOf(s.nodes[n]) == PairOf(was[n]);
    }
    NoClash(s, b);
  }

  // ---------- beacons first, again ----------

  lemma {:induction false} PickSeparate(cs: seq<NodeConfig>, beacon: bool)
    requires Separate(cs)
    ensures Separate(Pick(cs, beacon))
  {
    if cs != [] {
      var rest := Pick(cs[1..], beacon);
      PickSeparate(cs[1..], beacon);
      PickElements(cs[1..], beacon);
      forall j | 0 <= j < |rest| ensures cs[0].name != rest[j].name && cs[0].flags != rest[j].flags {
        assert rest[j] in cs[1..];
      }
    }
  }

  lemma SeparateElements(cs: seq<NodeConfig>, c: NodeConfig, d: NodeConfig)
    requires Separate(cs) && c in cs && d in cs && c != d
    ensures c.name != d.name && c.flags != d.flags
  {
  }

  lemma StartOrderFits(s: State, cs: seq<NodeConfig>, was: map<string, Node>)
    requires FitsAll(s, cs, was)
    ensures FitsAll(s, StartOrder(cs), was)
    ensures forall c :: c in StartOrder(cs) <==> c in cs
  {
    hide Fits;
    var a, b := Pick(cs, true), Pick(cs, false);
    PickSeparate(cs, true);
    PickSeparate(cs, false);
    PickElements(cs, true);
    PickElements(cs, false);
    forall i, j | 0 <= i < |a| && 0 <= j < |b| ensures a[i].name != b[j].name && a[i].flags != b[j].flags {
      assert a[i] in cs && b[j] in cs && a[i].isBeacon && !b[j].isBeacon;
      SeparateElements(cs, a[i], b[j]);
    }
    forall i | 0 <= i < |StartOrder(cs)| ensures Fits(s, StartOrder(cs)[i], was) {
      assert StartOrder(cs)[i] in cs;
    }
  }

  // ---------- the round trip ----------

  ghost predicate Fixable(saved: SavedNetwork) {
    FixDeprecated(saved.flags).Ok? && forall i :: 0 <= i < |saved.nodes| ==> FixDeprecated(saved.nodes[i].flags).Ok?
  }

  /** The network with the flags of the saved nodes, each in a map of its own. */
  function LoadedState(s: State, saved: SavedNetwork, o: LoadOptions): State
    requires Fixable(saved)
  {
    s.(store := s.store + seq(|saved.nodes|, i requires 0 <= i < |saved.nodes| =>
                                LoadedFlags(s.rootDir, saved.nodes[i], o).value))
  }

  /** The configuration a snapshot is loaded with. */
  function LoadedNetwork(s: State, saved: SavedNetwork, o: LoadOptions): NetConfig
    requires Fixable(saved)
  {
    NetConfig(saved.genesisOk,
              seq(|saved.nodes|, i requires 0 <= i < |saved.nodes| => LoadedConfig(saved.nodes[i], o, |s.store| + i)),
              FixDeprecated(saved.flags).value, saved.binaryPath, saved.files)
  }

  /** No flag map uses a deprecated name. */
  ghost predicate UpToDate(s: State)
    requires WellFormed(s)
  {
    && BuildDir !in s.netFlags && WhitelistedSubnets !in s.netFlags
    && (forall n :: n in s.nodes ==> BuildDir !in FlagsOf(s, n) && WhitelistedSubnets !in FlagsOf(s, n))
  }

  lemma SavedIsFixed(s: State, saved: SavedNetwork, names: seq<string>)
    requires WellFormed(s) && IsSaved(s, saved, names) && UpToDate(s)
    ensures Fixable(saved) && FixDeprecated(saved.flags) == Ok(saved.flags)
    ensures forall i :: 0 <= i < |saved.nodes| ==> FixDeprecated(saved.nodes[i].flags) == Ok(saved.nodes[i].flags)
  {
    FixNothing(saved.flags);
    forall i | 0 <= i < |saved.nodes| ensures FixDeprecated(saved.nodes[i].flags) == Ok(saved.nodes[i].flags) {
      assert saved.nodes[i] == SavedOf(s, names[i]);
      FixNothing(saved.nodes[i].flags);
    }
  }

  /** What a node's flags are after a round trip: what it ran with, with its ports, without
      the log directory, and with the new database directory. */
  ghost function FlagsBack(s: State, name: string, rootDir: string): FlagMap
    requires WellFormed(s) && name in s.nodes
  {
    JsonMap(PortsNow(s.netFlags + FlagsOf(s, name), s.nodes[name]) - {LogDir})[DbDir := Str(DbTarget(rootDir, name))]
  }

  /** A node came through. */
  ghost predicate CameBack(s: State, r: State, name: string, rootDir: string)
    requires WellFormed(s) && WellFormed(r) && name in s.nodes && name in r.nodes
  {
    var was, now := s.nodes[name], r.nodes[name];
    && now.id == was.id && now.apiPort == was.apiPort && now.p2pPort == was.p2pPort && !now.paused
    && now.cfg == was.cfg.(flags := now.cfg.flags, files := s.files + was.cfg.files,
                           configFile := WithoutLogs(was.cfg.configFile),
                           binaryPath := if was.cfg.binaryPath == "" then s.binaryPath else was.cfg.binaryPath)
    && FlagsOf(r, name) == FlagsBack(s, name, rootDir)
  }

  /** Without options, a saved node with up-to-date flags is loaded as it is. */
  lemma LoadedAt(f: State, saved: SavedNetwork, i: nat)
    requires Fixable(saved) && i < |saved.nodes| && FixDeprecated(saved.nodes[i].flags) == Ok(saved.nodes[i].flags)
    ensures var s1, c := LoadedState(f, saved, NO_OPTIONS), LoadedNetwork(f, saved, NO_OPTIONS).nodes[i];
            && c == saved.nodes[i].cfg.(flags := Some(|f.store| + i)) && |f.store| + i < |s1.store| && s1.site == f.site
            && s1.store[|f.store| + i] == saved.nodes[i].flags[DbDir := Str(DbTarget(f.rootDir, saved.nodes[i].cfg.name))]
  {
    hide FixDeprecated, DbTarget;
    assert saved.nodes[i].cfg.files + map[] == saved.nodes[i].cfg.files;
    assert saved.nodes[i].flags + map[] == saved.nodes[i].flags;
  }

  lemma SavedPorts(s: State, name: string)
    requires WellFormed(s) && name in s.nodes
    ensures var flags, node := SavedOf(s, name).flags, s.nodes[name];
            && HttpPort in flags && flags[HttpPort] == Float(node.apiPort as real)
            && StakingPort in flags && flags[StakingPort] == Float(node.p2pPort as real)
  {
  }

  lemma SavedConfigFits(s: State, f: State, saved: SavedNetwork, names: seq<string>, i: nat)
    requires WellFormed(s) && Identified(s) && IsSaved(s, saved, names) && UpToDate(s) && Fixable(saved) && f.site == s.site
    requires i < |names|
    ensures |LoadedNetwork(f, saved, NO_OPTIONS).nodes| == |names| && |LoadedState(f, saved, NO_OPTIONS).store| == |f.store| + |names|
    ensures var s1, c := LoadedState(f, saved, NO_OPTIONS), LoadedNetwork(f, saved, NO_OPTIONS).nodes[i];
            && Fits(s1, c, s.nodes) && c.name == names[i] && c.flags == Some(|f.store| + i)
            && s1.store[|f.store| + i] == saved.nodes[i].flags[DbDir := Str(DbTarget(f.rootDir, names[i]))]
            && c == s.nodes[names[i]].cfg.(flags := c.flags, configFile := WithoutLogs(s.nodes[names[i]].cfg.configFile))
  {
    hide FixDeprecated, DbTarget, LoadedState, LoadedNetwork, UpToDate, WithoutLogs, JsonMap, PortsNow;
    SavedIsFixed(s, saved, names);
    assert saved.nodes[i] == SavedOf(s, names[i]);
    LoadedCount(f, saved);
    LoadedAt(f, saved, i);
    SavedPorts(s, names[i]);
    hide IsSaved;
  }

  lemma SavedFitsAll(s: State, f: State, saved: SavedNetwork, names: seq<string>)
    requires WellFormed(s) && Identified(s) && IsSaved(s, saved, names) && UpToDate(s) && Fixable(saved) && f.site == s.site
    ensures FitsAll(LoadedState(f, saved, NO_OPTIONS), LoadedNetwork(f, saved, NO_OPTIONS).nodes, s.nodes)
    ensures AllAllocated(LoadedState(f, saved, NO_OPTIONS), LoadedNetwork(f, saved, NO_OPTIONS).nodes)
  {
    hide Fits, SavedOf, WithoutLogs, LoadedState, LoadedNetwork;
    var cs := LoadedNetwork(f, saved, NO_OPTIONS).nodes;
    LoadedCount(f, saved);
    forall i | 0 <= i < |cs| ensures Fits(LoadedState(f, saved, NO_OPTIONS), cs[i], s.nodes)
                             ensures cs[i].name == names[i] && cs[i].flags == Some(|f.store| + i)
    {
      SavedConfigFits(s, f, saved, names, i);
    }
    forall i | 0 <= i < |cs| ensures Allocated(LoadedState(f, saved, NO_OPTIONS), cs[i]) {
      FitsAllocated(LoadedState(f, saved, NO_OPTIONS), cs[i], s.nodes);
    }
  }

  lemma LoadedCount(f: State, saved: SavedNetwork)
    requires Fixable(saved)
    ensures |LoadedNetwork(f, saved, NO_OPTIONS).nodes| == |saved.nodes|
    ensures |LoadedState(f, saved, NO_OPTIONS).store| == |f.store| + |saved.nodes|
  {
  }

  lemma FitsAllocated(s: State, c: NodeConfig, was: map<string, Node>)
    requires Fits(s, c, was)
    ensures Allocated(s, c)
  {
  }

  /** Loading a saved network, without options, into a new one. */
  ghost function LoadBack(f: State, saved: SavedNetwork, envs: nat -> AddEnv, codes: nat -> int): Outcome
    requires WellFormed(f) && f.nodes == map[] && Fixable(saved)
    requires AllAllocated(LoadedState(f, saved, NO_OPTIONS), LoadedNetwork(f, saved, NO_OPTIONS).nodes)
  {
    LoadConfig(LoadedState(f, saved, NO_OPTIONS), LoadedNetwork(f, saved, NO_OPTIONS), envs, codes)
  }

  lemma MergedFlags(network: FlagMap, flags: FlagMap, node: Node, db: Value)
    ensures JsonMap(network - {LogDir}) + JsonMap(PortsNow(flags, node) - {LogDir})[DbDir := db]
         == JsonMap(PortsNow(network + flags, node) - {LogDir})[DbDir := db]
  {
  }

  lemma FitsSame(s: State, r: State, cs: seq<NodeConfig>, was: map<string, Node>)
    requires FitsAll(s, cs, was) && r.store == s.store && r.site == s.site
    ensures FitsAll(r, cs, was)
  {
    forall i | 0 <= i < |cs| ensures Fits(r, cs[i], was) { assert Fits(s, cs[i], was); }
  }

  /** What the loading of a valid configuration comes down to. */
  lemma LoadedOrder(s: State, f: State, saved: SavedNetwork, names: seq<string>, envs: nat -> AddEnv, codes: nat -> int)
    requires WellFormed(s) && Identified(s) && IsSaved(s, saved, names) && UpToDate(s)
    requires WellFormed(f) && f.nodes == map[] && f.site == s.site && Fixable(saved)
    ensures var s1, conf := LoadedState(f, saved, NO_OPTIONS), LoadedNetwork(f, saved, NO_OPTIONS);
            var s2, order := WithNetDefaults(s1, conf), StartOrder(conf.nodes);
            && AllAllocated(s1, conf.nodes) && FitsAll(s2, order, s.nodes) && AllAllocated(s2, order)
            && (forall c :: c in order <==> c in conf.nodes)
            && s2 == f.(store := s1.store, netFlags := saved.flags, binaryPath := s.binaryPath, files := s.files)
            && (ValidConfig(f.site, conf) && AddAll(s2, order, envs).err.None? ==>
                  LoadBack(f, saved, envs, codes) == AddAll(s2, order, envs))
            && (LoadBack(f, saved, envs, codes).err.None? ==> ValidConfig(f.site, conf) && AddAll(s2, order, envs).err.None?)
  {
    hide Fits, AddAll, StartOrder, StopAll, ValidConfig, SavedOf, FixDeprecated, Identified;
    var s1, conf := LoadedState(f, saved, NO_OPTIONS), LoadedNetwork(f, saved, NO_OPTIONS);
    SavedIsFixed(s, saved, names);
    SavedFitsAll(s, f, saved, names);
    FitsSame(s1, WithNetDefaults(s1, conf), conf.nodes, s.nodes);
    StartOrderFits(WithNetDefaults(s1, conf), conf.nodes, s.nodes);
    StartOrderAllocated(s1, conf.nodes);
  }

  /** What AddAllRestores says of one node, put in terms of the network that was saved. */
  lemma OneCameBack(s: State, f: State, s2: State, r: State, saved: SavedNetwork, names: seq<string>, i: nat)
    requires WellFormed(s) && Identified(s) && IsSaved(s, saved, names) && UpToDate(s) && Fixable(saved) && f.site == s.site
    requires i < |names| && WellFormed(r)
    requires s2 == f.(store := LoadedState(f, saved, NO_OPTIONS).store, netFlags := saved.flags,
                      binaryPath := s.binaryPath, files := s.files)
    requires |LoadedNetwork(f, saved, NO_OPTIONS).nodes| == |names|
    requires var c := LoadedNetwork(f, saved, NO_OPTIONS).nodes[i]; Fits(s2, c, s.nodes) && Restored(s2, r, c, s.nodes)
    ensures names[i] in s.nodes && names[i] in r.nodes && CameBack(s, r, names[i], f.rootDir)
  {
    hide JsonMap, PortsNow, LoadedState, LoadedNetwork, DbTarget, WithoutLogs, UpToDate, Identified;
    SavedConfigFits(s, f, saved, names, i);
    var n := names[i];
    assert saved.nodes[i] == SavedOf(s, n);
    MergedFlags(s.netFlags, FlagsOf(s, n), s.nodes[n], Str(DbTarget(f.rootDir, n)));
    hide IsSaved;
  }

  /** A network that is saved and loaded again has the same nodes, with the same IDs,
      certificates, beacon marks, config files and ports, and with the flags they had but
      for the log and the database directory. */
  lemma RoundTrip(s: State, f: State, saved: SavedNetwork, names: seq<string>, envs: nat -> AddEnv, codes: nat -> int)
    requires WellFormed(s) && Identified(s) && IsSaved(s, saved, names) && UpToDate(s) && !s.site.reassign
    requires WellFormed(f) && f.nodes == map[] && f.site == s.site
    ensures Fixable(saved) && AllAllocated(LoadedState(f, saved, NO_OPTIONS), LoadedNetwork(f, saved, NO_OPTIONS).nodes)
    ensures LoadBack(f, saved, envs, codes).err.None? ==>
              var r := LoadBack(f, saved, envs, codes).s;
              && WellFormed(r) && r.nodes.Keys == s.nodes.Keys
              && (forall n :: n in s.nodes ==> CameBack(s, r, n, f.rootDir))
  {
    hide LoadConfig, LoadedState, LoadedNetwork, IsSaved, Identified, UpToDate, CameBack, Fits;
    SavedIsFixed(s, saved, names);
    SavedFitsAll(s, f, saved, names);
    if LoadBack(f, saved, envs, codes).err.None? { AllCameBack(s, f, saved, names, envs, codes); }
  }

  lemma AllCameBack(s: State, f: State, saved: SavedNetwork, names: seq<string>, envs: nat -> AddEnv, codes: nat -> int)
    requires WellFormed(s) && Identified(s) && IsSaved(s, saved, names) && UpToDate(s) && !s.site.reassign
    requires WellFormed(f) && f.nodes == map[] && f.site == s.site && Fixable(saved)
    requires AllAllocated(LoadedState(f, saved, NO_OPTIONS), LoadedNetwork(f, saved, NO_OPTIONS).nodes)
    requires LoadBack(f, saved, envs, codes).err.None?
    ensures var r := LoadBack(f, saved, envs, codes).s;
            && WellFormed(r) && r.nodes.Keys == s.nodes.Keys
            && (forall n :: n in s.nodes ==> CameBack(s, r, n, f.rootDir))
  {
    hide LoadConfig, LoadedState, LoadedNetwork, StartOrder, AddAll, IsSaved, Identified, UpToDate, CameBack, Restored, Fits,
         FixDeprecated;
    LoadedOrder(s, f, saved, names, envs, codes);
    var s1, conf := LoadedState(f, saved, NO_OPTIONS), LoadedNetwork(f, saved, NO_OPTIONS);
    var s2, order := WithNetDefaults(s1, conf), StartOrder(conf.nodes);
    AddAllRestores(s2, order, envs, s.nodes);
    var r := AddAll(s2, order, envs).s;
    SavedNames(s, f, saved, names);
    NamesBack(conf.nodes, order, names);
    SiteKept(s2, r, NamesOf(order), AddressesOf(order));
    assert WellFormed(s2);
    AddAllShape(s2, order, envs);
    assert forall n :: n in s.nodes <==> n in names;
    forall n | n in s.nodes ensures n in r.nodes && CameBack(s, r, n, f.rootDir) {
      var i :| 0 <= i < |names| && names[i] == n;
      assert conf.nodes[i] in order;
      var k :| 0 <= k < |order| && order[k] == conf.nodes[i];
      assert Restored(s2, r, order[k], s.nodes);
      OneCameBack(s, f, s2, r, saved, names, i);
    }
    assert forall n :: n in r.nodes.Keys <==> n in s.nodes.Keys;
  }

  lemma AddAllShape(s: State, cs: seq<NodeConfig>, envs: nat -> AddEnv)
    requires AllAllocated(s, cs) && WellFormed(s)
    ensures WellFormed(AddAll(s, cs, envs).s)
  {
  }

  lemma SavedNames(s: State, f: State, saved: SavedNetwork, names: seq<string>)
    requires WellFormed(s) && Identified(s) && IsSaved(s, saved, names) && UpToDate(s) && Fixable(saved) && f.site == s.site
    ensures var cs := LoadedNetwork(f, saved, NO_OPTIONS).nodes;
            && |cs| == |names| && (forall i :: 0 <= i < |names| ==> cs[i].name == names[i])
            && (forall n :: n in names <==> n in s.nodes)
  {
    hide SavedOf, LoadedState, LoadedNetwork, Fits, UpToDate, Identified;
    LoadedCount(f, saved);
    forall i | 0 <= i < |names| ensures LoadedNetwork(f, saved, NO_OPTIONS).nodes[i].name == names[i] {
      SavedConfigFits(s, f, saved, names, i);
    }
    assert forall n :: n in names <==> n in Elements(names);
    assert forall n :: n in s.nodes <==> n in s.nodes.Keys;
  }

  lemma NamesBack(cs: seq<NodeConfig>, order: seq<NodeConfig>, names: seq<string>)
    requires |cs| == |names| && (forall i :: 0 <= i < |names| ==> cs[i].name == names[i]) && forall c :: c in order <==> c in cs
    ensures forall n :: n in NamesOf(order) <==> n in names
  {
    forall n | n in names ensures n in NamesOf(order) {
      var i :| 0 <= i < |names| && names[i] == n;
      assert cs[i] in order;
    }
  }

  // ---------- the round trip succeeds ----------

  /** What the node reads as strings still is, after a round trip. */
  lemma TypedBack(s: State, name: string, rootDir: string)
    requires WellFormed(s) && name in s.nodes && Typed(s.netFlags + FlagsOf(s, name), s.nodes[name].cfg.configFile)
    ensures Typed(FlagsBack(s, name, rootDir), WithoutLogs(s.nodes[name].cfg.configFile))
  {
    hide DbTarget;
    var file := s.nodes[name].cfg.configFile;
    var was, now := s.netFlags + FlagsOf(s, name), FlagsBack(s, name, rootDir);
    var file1, file2 := if file.Some? then file.value else map[], if file.Some? then file.value - {LogDir} else map[];
    forall k | k in {HttpHost, DataDir, PluginDir} ensures StringAt(now, file2, k) {
      assert StringAt(was, file1, k);
      assert k in now <==> k in was;
    }
    assert StringAt(now, file2, DbDir) && StringAt(now, file2, LogDir);
  }

  /** What a network must be for its snapshot to load again: it has a beacon unless it is
      empty, no two nodes have an ID or a port in common, and what is read as a string is one. */
  ghost predicate Reloadable(s: State)
    requires WellFormed(s)
  {
    && Distinct(s.nodes)
    && (s.nodes == map[] || exists n :: n in s.nodes && s.nodes[n].cfg.isBeacon)
    && (forall n :: n in s.nodes ==> Typed(s.netFlags + FlagsOf(s, n), s.nodes[n].cfg.configFile))
    && (forall n :: n in s.nodes && s.nodes[n].cfg.configFile.Some? ==>
          ValidConfigFile(s.nodes[n].cfg.configFile.value - {LogDir}, s.site.networkId))
  }

  lemma LoadedGenesis(f: State, saved: SavedNetwork)
    requires Fixable(saved) && saved.genesisOk
    ensures LoadedNetwork(f, saved, NO_OPTIONS).genesisOk
  {
  }

  lemma LogsAreOut(file: Option<FlagMap>)
    ensures WithoutLogs(file).Some? ==> file.Some? && WithoutLogs(file).value == file.value - {LogDir}
  {
  }

  /** The identity and the config file of a saved node. */
  lemma SavedConfigIs(s: State, f: State, saved: SavedNetwork, names: seq<string>, i: nat)
    requires WellFormed(s) && Identified(s) && IsSaved(s, saved, names) && UpToDate(s) && Fixable(saved) && f.site == s.site
    requires i < |names| && Reloadable(s) && |LoadedNetwork(f, saved, NO_OPTIONS).nodes| == |names|
    ensures var c := LoadedNetwork(f, saved, NO_OPTIONS).nodes[i];
            && names[i] in s.nodes && c.cert != "" && c.isBeacon == s.nodes[names[i]].cfg.isBeacon
            && (c.configFile.Some? ==> ValidConfigFile(c.configFile.value, s.site.networkId))
  {
    hide SavedOf, LoadedState, LoadedNetwork, Fits, UpToDate, ValidConfigFile, Typed, Distinct, FixDeprecated, WithoutLogs;
    SavedConfigFits(s, f, saved, names, i);
    LogsAreOut(s.nodes[names[i]].cfg.configFile);
  }

  lemma SavedIsValid(s: State, f: State, saved: SavedNetwork, names: seq<string>)
    requires WellFormed(s) && Identified(s) && IsSaved(s, saved, names) && UpToDate(s) && Fixable(saved) && f.site == s.site
    requires Reloadable(s)
    ensures ValidConfig(f.site, LoadedNetwork(f, saved, NO_OPTIONS))
  {
    hide SavedOf, LoadedState, LoadedNetwork, Fits, UpToDate, ValidConfigFile, Typed, Distinct, FixDeprecated, Identified, WellFormed;
    var conf := LoadedNetwork(f, saved, NO_OPTIONS);
    assert conf.genesisOk by { LoadedGenesis(f, saved); }
    SavedNames(s, f, saved, names);
    forall i | 0 <= i < |names|
      ensures names[i] in s.nodes && conf.nodes[i].cert != "" && conf.nodes[i].isBeacon == s.nodes[names[i]].cfg.isBeacon
      ensures conf.nodes[i].configFile.Some? ==> ValidConfigFile(conf.nodes[i].configFile.value, s.site.networkId)
    {
      SavedConfigIs(s, f, saved, names, i);
    }
    hide IsSaved;
    if n :| n in s.nodes && s.nodes[n].cfg.isBeacon {
      assert n in names;
      var i :| 0 <= i < |names| && names[i] == n;
      assert conf.nodes[i].isBeacon;
    }
    assert s.nodes == map[] ==> conf.nodes == [] by { assert |names| > 0 ==> names[0] in s.nodes; }
  }

  /** One saved node can be started. */
  lemma OneStartable(s: State, f: State, s2: State, saved: SavedNetwork, names: seq<string>, i: nat)
    requires WellFormed(s) && Identified(s) && IsSaved(s, saved, names) && UpToDate(s) && Fixable(saved) && f.site == s.site
    requires i < |names| && Reloadable(s) && |LoadedNetwork(f, saved, NO_OPTIONS).nodes| == |names|
    requires s2 == f.(store := LoadedState(f, saved, NO_OPTIONS).store, netFlags := saved.flags,
                      binaryPath := s.binaryPath, files := s.files)
    ensures var c := LoadedNetwork(f, saved, NO_OPTIONS).nodes[i];
            c.flags.Some? && c.flags.value < |s2.store| && Typed(s2.netFlags + s2.store[c.flags.value], c.configFile)
  {
    hide JsonMap, PortsNow, LoadedState, LoadedNetwork, DbTarget, WithoutLogs, UpToDate, Identified, Typed, Fits, Distinct, ValidConfigFile;
    SavedConfigFits(s, f, saved, names, i);
    var n := names[i];
    assert saved.nodes[i] == SavedOf(s, n);
    MergedFlags(s.netFlags, FlagsOf(s, n), s.nodes[n], Str(DbTarget(f.rootDir, n)));
    TypedBack(s, n, f.rootDir);
    hide IsSaved;
  }

  /** If nothing outside is in the way and the ports are free, the snapshot loads. */
  lemma RoundTripSucceeds(s: State, f: State, saved: SavedNetwork, names: seq<string>, envs: nat -> AddEnv, codes: nat -> int)
    requires WellFormed(s) && Identified(s) && IsSaved(s, saved, names) && UpToDate(s) && !s.site.reassign && Reloadable(s)
    requires WellFormed(f) && f.nodes == map[] && f.beacons == [] && f.site == s.site
    requires forall k :: Favorable(envs(k))
    ensures Fixable(saved) && AllAllocated(LoadedState(f, saved, NO_OPTIONS), LoadedNetwork(f, saved, NO_OPTIONS).nodes)
    ensures LoadBack(f, saved, envs, codes).err.None?
  {
    hide LoadConfig, LoadedState, LoadedNetwork, StartOrder, AddAll, IsSaved, Identified, UpToDate, Fits, FixDeprecated, ValidConfig,
         Favorable, Typed;
    SavedIsFixed(s, saved, names);
    SavedFitsAll(s, f, saved, names);
    LoadedOrder(s, f, saved, names, envs, codes);
    var s1, conf := LoadedState(f, saved, NO_OPTIONS), LoadedNetwork(f, saved, NO_OPTIONS);
    var s2, order := WithNetDefaults(s1, conf), StartOrder(conf.nodes);
    SavedIsValid(s, f, saved, names);
    SavedNames(s, f, saved, names);
    forall k | 0 <= k < |order|
      ensures order[k].flags.Some? && order[k].flags.value < |s2.store|
      ensures Typed(s2.netFlags + s2.store[order[k].flags.value], order[k].configFile)
    {
      assert order[k] in conf.nodes;
      var i :| 0 <= i < |conf.nodes| && conf.nodes[i] == order[k];
      OneStartable(s, f, s2, saved, names, i);
    }
    AddAllSucceeds(s2, order, envs, s.nodes);
  }

  /** A network without a beacon can be saved but not loaded again. */
  lemma NoBeaconNoReload(s: State, f: State, saved: SavedNetwork, names: seq<string>, envs: nat -> AddEnv, codes: nat -> int)
    requires WellFormed(s) && Identified(s) && IsSaved(s, saved, names) && UpToDate(s)
    requires s.nodes != map[] && forall n :: n in s.nodes ==> !s.nodes[n].cfg.isBeacon
    requires WellFormed(f) && f.nodes == map[] && f.site == s.site
    ensures Fixable(saved) && AllAllocated(LoadedState(f, saved, NO_OPTIONS), LoadedNetwork(f, saved, NO_OPTIONS).nodes)
    ensures LoadBack(f, saved, envs, codes).err == Some(InvalidConfig)
  {
    hide LoadedState, Fits, UpToDate, SavedOf, ValidConfigFile, AddAll, StartOrder, FixDeprecated, LoadedConfig;
    SavedIsFixed(s, saved, names);
    SavedFitsAll(s, f, saved, names);
    SavedNames(s, f, saved, names);
    var conf := LoadedNetwork(f, saved, NO_OPTIONS);
    forall i | 0 <= i < |names| ensures !conf.nodes[i].isBeacon {
      SavedConfigFits(s, f, saved, names, i);
    }
    var n :| n in s.nodes;
    assert n in names;
  }
}
