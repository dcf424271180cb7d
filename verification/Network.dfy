/** The network of node processes (local/network.go): its state, what each
    operation makes of it, and everything those operations keep. */
module Network {
  import opened Common
  import opened Strings
  import opened Paths
  import opened Flags

  // ---------- state ----------

  datatype FileKind = ChainFile | UpgradeFile | SubnetFile

  /** The chain, upgrade and subnet config files of a node, by kind and alias. */
  type ConfigFiles = map<(FileKind, string), string>

  /** node.Config. Its Flags map is shared by reference: flags is the address of
      the map in the store of the network, None for nil. The certificate stands
      for both the staking key and certificate; it is "" when one is missing. */
  datatype NodeConfig = NodeConfig(
    name: string, isBeacon: bool, cert: string, binaryPath: string,
    configFile: Option<FlagMap>, flags: Option<nat>, files: ConfigFiles)

  /** localNode. */
  datatype Node = Node(
    cfg: NodeConfig, id: string, pid: nat,
    apiPort: Port, p2pPort: Port,
    dataDir: string, dbDir: string, logsDir: string, pluginDir: string, httpHost: string,
    paused: bool)

  /** A process that was started; exit is None while it has not stopped. */
  datatype Proc = Proc(name: string, id: string, args: ArgMap, exit: Option<int>)

  datatype State = State(
    site: Site, rootDir: string,
    binaryPath: string, netFlags: FlagMap, files: ConfigFiles,  // defaults for the nodes
    nodes: map<string, Node>,
    beacons: seq<Beacon>,
    nextSuffix: nat,
    stopped: bool,           // the stop channel is closed
    procs: seq<Proc>,        // every process ever started; its index is its pid
    store: seq<FlagMap>)     // every Flags map; its index is its address

  datatype Outcome = Outcome(s: State, err: Option<Error>)

  /** Nodes refer to processes and flag maps that exist. */
  ghost predicate WellFormed(s: State) {
    forall n :: n in s.nodes ==>
      s.nodes[n].pid < |s.procs| && s.nodes[n].cfg.flags.Some? && s.nodes[n].cfg.flags.value < |s.store|
  }

  predicate Allocated(s: State, c: NodeConfig) {
    c.flags.Some? ==> c.flags.value < |s.store|
  }

  // ---------- names ----------

  /** The n-th generated name. */
  function NodeName(n: nat): string {
    "node" + Decimal(n)
  }

  lemma NodeNameInjective(m: nat, n: nat)
    requires NodeName(m) == NodeName(n)
    ensures m == n
  {
    assert NodeName(m)[4..] == Decimal(m) && NodeName(n)[4..] == Decimal(n);
    DecimalInjective(m, n);
  }

  /** The used names that the generator would still come across. */
  ghost function UsedFrom(used: set<string>, n: nat): set<string> {
    set x | x in used && exists m: nat :: m >= n && x == NodeName(m)
  }

  lemma UsedShrinks(used: set<string>, n: nat)
    requires NodeName(n) in used
    ensures UsedFrom(used, n + 1) < UsedFrom(used, n)
  {
    assert NodeName(n) in UsedFrom(used, n);
    assert NodeName(n) !in UsedFrom(used, n + 1) by {
      if m: nat :| m >= n + 1 && NodeName(n) == NodeName(m) { NodeNameInjective(n, m); }
    }
  }

  /** The least suffix from n on whose name is free. */
  function LeastFree(used: set<string>, n: nat): (r: nat)
    ensures r >= n && NodeName(r) !in used
    ensures forall m: nat :: n <= m < r ==> NodeName(m) in used
    decreases UsedFrom(used, n)
  {
    if NodeName(n) in used then
      UsedShrinks(used, n);
      LeastFree(used, n + 1)
    else n
  }

  // ---------- adding a node ----------

  /** What the outside answers while a node is added. A key pair that cannot be
      generated is "". */
  datatype AddEnv = AddEnv(
    newCert: string, signingKeyOk: bool, dirOk: bool, configParses: bool, versionKnown: bool,
    args: ArgsEnv, launches: bool)

  /** The network's defaults below the node's own settings; the Flags map is
      changed in place, and a nil one is replaced by a new one. */
  function FlagsAddress(s: State, c: NodeConfig): nat {
    if c.flags.Some? then c.flags.value else |s.store|
  }

  function WithDefaults(s: State, c: NodeConfig): NodeConfig {
    c.(flags := Some(FlagsAddress(s, c)),
       binaryPath := if c.binaryPath == "" then s.binaryPath else c.binaryPath,
       files := s.files + c.files)
  }

  function StoreWithDefaults(s: State, c: NodeConfig): (r: seq<FlagMap>)
    requires Allocated(s, c)
    ensures |r| == (if c.flags.Some? then |s.store| else |s.store| + 1) && FlagsAddress(s, c) < |r|
  {
    if c.flags.Some? then s.store[c.flags.value := s.netFlags + s.store[c.flags.value]]
    else s.store + [s.netFlags]
  }

  /** A node that is about to be launched. */
  datatype Ready = Ready(cfg: NodeConfig, r: Resolved, id: string)

  datatype Prepared = Prepared(s: State, ready: Result<Ready, Error>)

  /** The checks from the node directory to the launch, in their order. */
  function Resolve(s: State, c: NodeConfig, e: AddEnv): Result<Ready, Error>
    requires c.flags.Some? && c.flags.value < |s.store|
  {
    if !e.dirOk then Err(DirectoryFailed)
    else if c.configFile.Some? && !e.configParses then Err(BadConfigFile)
    else if !e.versionKnown then Err(VersionUnknown)
    else
      var r := BuildArgs(s.site, s.beacons, s.store[c.flags.value], c.configFile, JoinPath(s.rootDir, c.name), e.args);
      if r.Err? then Err(r.error)
      else if s.site.idOf(c.cert).None? then Err(BadIdentity)
      else if !e.launches then Err(LaunchFailed)
      else Ok(Ready(c, r.value, s.site.idOf(c.cert).value))
  }

  /** What is known of a node that is about to be launched. */
  ghost predicate ReadyFor(s: State, c: NodeConfig, e: AddEnv, s': State, x: Ready) {
    && x.cfg == WithDefaults(s, c).(name := x.cfg.name, cert := x.cfg.cert)
    && x.cfg.cert != "" && (c.cert != "" ==> x.cfg.cert == c.cert) && s.site.idOf(x.cfg.cert) == Some(x.id)
    && (c.name != "" ==> x.cfg.name == c.name)
    && (c.name == "" ==> x.cfg.name == NodeName(s'.nextSuffix) && x.cfg.name !in s.nodes)
    && (x.cfg.name in s.nodes ==> s.nodes[x.cfg.name].paused)
    && x.cfg.flags.value < |s'.store|
    && BuildArgs(s.site, s.beacons, s'.store[x.cfg.flags.value], c.configFile, JoinPath(s.rootDir, x.cfg.name), e.args)
       == Ok(x.r)
  }

  /** Everything addNode does before it starts the process. */
  function Prepare(s: State, c: NodeConfig, e: AddEnv): Prepared
    requires Allocated(s, c)
  {
    var s1 := s.(store := StoreWithDefaults(s, c));
    var c1 := WithDefaults(s, c);
    if c1.cert == "" && e.newCert == "" then Prepared(s1, Err(KeyGenerationFailed))
    else if !e.signingKeyOk then Prepared(s1, Err(KeyGenerationFailed))
    else
      var c2 := c1.(cert := if c1.cert == "" then e.newCert else c1.cert);
      var suffix := LeastFree(s1.nodes.Keys, s1.nextSuffix);
      var s2 := if c2.name == "" then s1.(nextSuffix := suffix) else s1;
      var c3 := if c2.name == "" then c2.(name := NodeName(suffix)) else c2;
      if c3.name in s2.nodes && !s2.nodes[c3.name].paused then Prepared(s2, Err(RepeatedNodeName))
      else Prepared(s2, Resolve(s2, c3, e))
  }

  lemma PrepareFacts(s: State, c: NodeConfig, e: AddEnv)
    requires Allocated(s, c)
    ensures var p := Prepare(s, c, e);
            && p.s == s.(store := StoreWithDefaults(s, c), nextSuffix := p.s.nextSuffix)
            && p.s.nextSuffix >= s.nextSuffix && (c.name != "" ==> p.s.nextSuffix == s.nextSuffix)
            && (p.ready.Ok? ==> ReadyFor(s, c, e, p.s, p.ready.value))
            && (p.ready.Err? ==> BeforeStart(p.ready.error))
  {
    hide Resolve, StoreWithDefaults;
    var p := Prepare(s, c, e);
    var c1 := WithDefaults(s, c);
    var c2 := c1.(cert := if c1.cert == "" then e.newCert else c1.cert);
    var c3 := if c2.name == "" then c2.(name := NodeName(p.s.nextSuffix)) else c2;
    if c3.flags.value < |p.s.store| { ResolveFacts(p.s, c3, e); }
  }

  lemma ResolveFacts(s: State, c: NodeConfig, e: AddEnv)
    requires c.flags.Some? && c.flags.value < |s.store|
    ensures var x := Resolve(s, c, e);
            && (x.Err? ==> BeforeStart(x.error))
            && (x.Ok? ==>
                  x.value.cfg == c && s.site.idOf(c.cert) == Some(x.value.id)
                  && BuildArgs(s.site, s.beacons, s.store[c.flags.value], c.configFile, JoinPath(s.rootDir, c.name), e.args)
                   == Ok(x.value.r))
  {
    hide BuildArgs;
    var r := BuildArgs(s.site, s.beacons, s.store[c.flags.value], c.configFile, JoinPath(s.rootDir, c.name), e.args);
    if r.Err? {
      BuildArgsErrors(s.site, s.beacons, s.store[c.flags.value], c.configFile, JoinPath(s.rootDir, c.name), e.args);
    }
  }

  /** beacon.Set.Add refuses a known ID and a known address. */
  predicate Clashes(beacons: seq<Beacon>, b: Beacon) {
    exists i :: 0 <= i < |beacons| && (beacons[i].id == b.id || beacons[i].port == b.port)
  }

  function NodeOf(x: Ready, pid: nat): Node {
    Node(x.cfg, x.id, pid, x.r.apiPort, x.r.p2pPort,
         x.r.dataDir, x.r.dbDir, x.r.logsDir, x.r.pluginDir, x.r.httpHost, false)
  }

  /** The process starts and the node is entered under its name. */
  function Install(s: State, x: Ready): Outcome {
    var wasPaused := x.cfg.name in s.nodes && s.nodes[x.cfg.name].paused;
    var s' := s.(nodes := s.nodes[x.cfg.name := NodeOf(x, |s.procs|)],
                 procs := s.procs + [Proc(x.cfg.name, x.id, x.r.args, None)]);
    var b := Beacon(x.id, x.r.p2pPort);
    if wasPaused || !x.cfg.isBeacon then Outcome(s', None)
    else if Clashes(s.beacons, b) then Outcome(s', Some(DuplicateBeacon))
    else Outcome(s'.(beacons := s.beacons + [b]), None)
  }

  /** addNode. */
  function AddNode(s: State, c: NodeConfig, e: AddEnv): (o: Outcome)
    requires Allocated(s, c)
  {
    var p := Prepare(s, c, e);
    if p.ready.Err? then Outcome(p.s, Some(p.ready.error)) else Install(p.s, p.ready.value)
  }

  /** The ways in which adding a node can fail. */
  lemma AddNodeErrors(s: State, c: NodeConfig, e: AddEnv)
    requires Allocated(s, c)
    ensures var err := AddNode(s, c, e).err; err.None? || BeforeStart(err.value) || err == Some(DuplicateBeacon)
  {
    hide Prepare, BuildArgs, StoreWithDefaults, WithDefaults, ReadyFor;
    PrepareFacts(s, c, e);
  }

  lemma AddNodeKeepsShape(s: State, c: NodeConfig, e: AddEnv)
    requires Allocated(s, c)
    ensures |AddNode(s, c, e).s.store| >= |s.store|
    ensures WellFormed(s) ==> WellFormed(AddNode(s, c, e).s)
  {
    hide Prepare, BuildArgs, StoreWithDefaults, Install, WithDefaults, ReadyFor;
    var p := Prepare(s, c, e);
    PrepareFacts(s, c, e);
    if p.ready.Ok? {
      ReadyHasFlags(s, c, e, p.s, p.ready.value);
      InstallKeepsShape(p.s, p.ready.value);
    }
  }

  lemma ReadyHasFlags(s: State, c: NodeConfig, e: AddEnv, s': State, x: Ready)
    requires ReadyFor(s, c, e, s', x)
    ensures x.cfg.flags.Some? && x.cfg.flags.value < |s'.store|
  {
    hide BuildArgs;
  }

  lemma InstallKeepsShape(s: State, x: Ready)
    requires x.cfg.flags.Some? && x.cfg.flags.value < |s.store|
    ensures Install(s, x).s.store == s.store
    ensures WellFormed(s) ==> WellFormed(Install(s, x).s)
  {
  }

  // ---------- removing, pausing, resuming, restarting ----------

  /** beacon.Set.RemoveByID. */
  function WithoutId(beacons: seq<Beacon>, id: string): seq<Beacon> {
    if beacons == [] then []
    else if beacons[0].id == id then WithoutId(beacons[1..], id)
    else [beacons[0]] + WithoutId(beacons[1..], id)
  }

  /** The exit code a Stop of process p reports: that of an earlier exit, else code. */
  function ExitCode(p: Proc, code: int): int {
    if p.exit.Some? then p.exit.value else code
  }

  function Halt(p: Proc, code: int): Proc {
    p.(exit := Some(ExitCode(p, code)))
  }

  /** removeNode; code is what the process exits with if it has to be stopped. */
  function RemoveNode(s: State, name: string, code: int): Outcome
    requires WellFormed(s)
  {
    if name !in s.nodes then Outcome(s, Some(NodeNotFound))
    else
      var node := s.nodes[name];
      var s' := s.(beacons := WithoutId(s.beacons, node.id), nodes := s.nodes - {name});
      if node.paused then Outcome(s', None)
      else
        Outcome(s'.(procs := s.procs[node.pid := Halt(s.procs[node.pid], code)]),
                if ExitCode(s.procs[node.pid], code) != 0 then Some(NonZeroExit) else None)
  }

  /** pauseNode. */
  function PauseNode(s: State, name: string, code: int): Outcome
    requires WellFormed(s)
  {
    if name !in s.nodes then Outcome(s, Some(NodeNotFound))
    else
      var node := s.nodes[name];
      if node.paused then Outcome(s, Some(AlreadyPaused))
      else
        var s' := s.(procs := s.procs[node.pid := Halt(s.procs[node.pid], code)]);
        if ExitCode(s.procs[node.pid], code) != 0 then Outcome(s', Some(NonZeroExit))
        else Outcome(s'.(nodes := s.nodes[name := node.(paused := true)]), None)
  }

  function PinnedFor(flags: FlagMap, node: Node): FlagMap {
    Pinned(flags, node.dataDir, node.dbDir, node.logsDir, node.apiPort, node.p2pPort)
  }

  function WriteFlags(s: State, address: nat, flags: FlagMap): State
    requires address < |s.store|
  {
    s.(store := s.store[address := flags])
  }

  /** resumeNode. */
  function ResumeNode(s: State, name: string, e: AddEnv): Outcome
    requires WellFormed(s)
  {
    if name !in s.nodes then Outcome(s, Some(NodeNotFound))
    else
      var node := s.nodes[name];
      if !node.paused then Outcome(s, Some(NotPaused))
      else
        var a := node.cfg.flags.value;
        AddNode(WriteFlags(s, a, PinnedFor(s.store[a], node)), node.cfg, e)
  }

  /** The optional overrides of a restart; "" and the empty map change nothing. */
  datatype Overrides = Overrides(binaryPath: string, pluginDir: string, trackSubnets: string, files: ConfigFiles)

  const NO_OVERRIDES := Overrides("", "", "", map[])

  function OverriddenFlags(flags: FlagMap, o: Overrides): FlagMap {
    var flags1 := if o.pluginDir != "" then flags[PluginDir := Str(o.pluginDir)] else flags;
    if o.trackSubnets != "" then flags1[TrackSubnets := Str(o.trackSubnets)] else flags1
  }

  /** The node's maps after the overrides of a restart were written into them. */
  function Overridden(s: State, name: string, o: Overrides): State
    requires WellFormed(s) && name in s.nodes
  {
    var node := s.nodes[name];
    var a := node.cfg.flags.value;
    s.(store := s.store[a := PinnedFor(OverriddenFlags(s.store[a], o), node)],
       nodes := s.nodes[name := node.(cfg := node.cfg.(files := node.cfg.files + o.files))])
  }

  /** restartNode. */
  function RestartNode(s: State, name: string, o: Overrides, code: int, e: AddEnv): Outcome
    requires WellFormed(s)
  {
    if name !in s.nodes then Outcome(s, Some(NodeNotFound))
    else
      var s1 := Overridden(s, name, o);
      var node := s1.nodes[name];
      var c := if o.binaryPath != "" then node.cfg.(binaryPath := o.binaryPath) else node.cfg;
      if node.paused then AddNode(s1, c, e)
      else
        var removed := RemoveNode(s1, name, code);
        if removed.err.Some? then removed else AddNode(removed.s, c, e)
  }

  // ---------- stopping ----------

  function LivePids(nodes: map<string, Node>): set<nat> {
    set n | n in nodes && !nodes[n].paused :: nodes[n].pid
  }

  function Ids(nodes: map<string, Node>): set<string> {
    set n | n in nodes :: nodes[n].id
  }

  function HaltAll(procs: seq<Proc>, pids: set<nat>, codes: nat -> int): (r: seq<Proc>)
    ensures |r| == |procs|
    ensures forall p :: 0 <= p < |procs| ==> r[p] == if p in pids then Halt(procs[p], codes(p)) else procs[p]
  {
    seq(|procs|, p requires 0 <= p < |procs| => if p in pids then Halt(procs[p], codes(p)) else procs[p])
  }

  function WithoutIds(beacons: seq<Beacon>, ids: set<string>): seq<Beacon> {
    if beacons == [] then []
    else if beacons[0].id in ids then WithoutIds(beacons[1..], ids)
    else [beacons[0]] + WithoutIds(beacons[1..], ids)
  }

  /** Some process that is not paused does not exit with code 0. */
  predicate SomeExitFails(s: State, codes: nat -> int)
    requires WellFormed(s)
  {
    exists n :: n in s.nodes && !s.nodes[n].paused && ExitCode(s.procs[s.nodes[n].pid], codes(s.nodes[n].pid)) != 0
  }

  /** stop, as one step: all nodes are removed, in whatever order; codes(p) is what
      process p exits with if it has to be stopped. */
  function StopAll(s: State, codes: nat -> int): Outcome
    requires WellFormed(s)
  {
    Outcome(s.(nodes := map[],
               beacons := WithoutIds(s.beacons, Ids(s.nodes)),
               procs := HaltAll(s.procs, LivePids(s.nodes), codes)),
            if SomeExitFails(s, codes) then Some(NonZeroExit) else None)
  }

  // ---------- loading a configuration ----------

  /** network.Config; genesisOk says that the genesis is there and names the network. */
  datatype NetConfig = NetConfig(
    genesisOk: bool, nodes: seq<NodeConfig>, flags: FlagMap, binaryPath: string, files: ConfigFiles)

  predicate HasKind(file: FlagMap, k: Key, str: bool) {
    k in file ==> if str then file[k].Str? else file[k].Float?
  }

  /** validateConfigFile. */
  predicate ValidConfigFile(file: FlagMap, networkId: nat) {
    && (NetworkName in file ==> file[NetworkName].Float? && Truncate(file[NetworkName].x) % 0x1_0000_0000 == networkId)
    && HasKind(file, DbDir, true) && HasKind(file, LogDir, true)
    && HasKind(file, HttpPort, false) && HasKind(file, StakingPort, false)
  }

  /** Config.Validate. */
  predicate ValidConfig(site: Site, conf: NetConfig) {
    && conf.genesisOk
    && (forall i :: 0 <= i < |conf.nodes| ==>
          conf.nodes[i].cert != ""
          && (conf.nodes[i].configFile.Some? ==> ValidConfigFile(conf.nodes[i].configFile.value, site.networkId)))
    && (conf.nodes != [] ==> exists i :: 0 <= i < |conf.nodes| && conf.nodes[i].isBeacon)
  }

  function Pick(cs: seq<NodeConfig>, beacon: bool): seq<NodeConfig> {
    if cs == [] then []
    else if cs[0].isBeacon == beacon then [cs[0]] + Pick(cs[1..], beacon)
    else Pick(cs[1..], beacon)
  }

  /** Beacons first, otherwise in the given order. */
  function StartOrder(cs: seq<NodeConfig>): seq<NodeConfig> {
    Pick(cs, true) + Pick(cs, false)
  }

  predicate AllAllocated(s: State, cs: seq<NodeConfig>) {
    forall i :: 0 <= i < |cs| ==> Allocated(s, cs[i])
  }

  /** Nodes are added until one fails; envs(k) answers for the k-th node. */
  function AddAll(s: State, cs: seq<NodeConfig>, envs: nat -> AddEnv): (o: Outcome)
    requires AllAllocated(s, cs)
    ensures |o.s.store| >= |s.store|
    ensures WellFormed(s) ==> WellFormed(o.s)
    decreases |cs|
  {
    hide AddNode;
    if cs == [] then Outcome(s, None)
    else
      var first := AddAll(s, cs[..|cs| - 1], envs);
      if first.err.Some? then first
      else
        AddNodeKeepsShape(first.s, cs[|cs| - 1], envs(|cs| - 1));
        AddNode(first.s, cs[|cs| - 1], envs(|cs| - 1))
  }

  function WithNetDefaults(s: State, conf: NetConfig): State {
    s.(netFlags := conf.flags, binaryPath := conf.binaryPath, files := conf.files)
  }

  /** loadConfig: what was started is stopped again if a node cannot be added. */
  function LoadConfig(s: State, conf: NetConfig, envs: nat -> AddEnv, codes: nat -> int): Outcome
    requires AllAllocated(s, conf.nodes) && WellFormed(s)
  {
    if !ValidConfig(s.site, conf) then Outcome(s, Some(InvalidConfig))
    else
      StartOrderAllocated(s, conf.nodes);
      var added := AddAll(WithNetDefaults(s, conf), StartOrder(conf.nodes), envs);
      if added.err.Some? then
        Outcome(StopAll(added.s, codes).s, added.err)
      else added
  }

  lemma {:induction false} PickElements(cs: seq<NodeConfig>, beacon: bool)
    ensures forall c :: c in Pick(cs, beacon) <==> c in cs && c.isBeacon == beacon
  {
    if cs != [] {
      PickElements(cs[1..], beacon);
      assert cs == [cs[0]] + cs[1..];
    }
  }

  lemma StartOrderAllocated(s: State, cs: seq<NodeConfig>)
    requires AllAllocated(s, cs)
    ensures AllAllocated(s, StartOrder(cs))
  {
    PickElements(cs, true);
    PickElements(cs, false);
    forall i | 0 <= i < |StartOrder(cs)| ensures Allocated(s, StartOrder(cs)[i]) {
      assert StartOrder(cs)[i] in cs;
    }
  }
}
