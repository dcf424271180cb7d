/** Flag maps and how a node's command line is put together from them
    (local/helpers.go and buildArgs in local/network.go). */
module Flags {
  import opened Common
  import opened Strings
  import opened Paths

  type Port = p: int | 0 <= p < 65536

  /** A Go interface{} as it occurs in a flag map. A JSON number is a Float. */
  datatype Value =
    | Null
    | Bool(b: bool)
    | Str(s: string)
    | Int(i: int)
    | Uint16(p: Port)
    | Float(x: real)

  /** The name of a flag. The names the runner itself uses are constructors. */
  datatype Key =
    | HttpPort | StakingPort | HttpHost
    | DataDir | DbDir | LogDir
    | PluginDir | TrackSubnets
    | BuildDir | WhitelistedSubnets             // names that older node versions use
    | NetworkName | BootstrapIps | BootstrapIds
    | StakingTlsKeyFile | StakingCertFile | StakingSignerKeyFile
    | Genesis | ConfigFile | ChainConfigDir | SubnetConfigDir
    | Other(name: string)

  type FlagMap = map<Key, Value>

  /** A command line: flag names with the printed values. */
  type ArgMap = map<Key, string>

  const PORT_KEYS := {HttpPort, StakingPort}

  // ---------- values ----------

  /** Conversion of a float to an integer drops the fraction. */
  function Truncate(x: real): int {
    if x >= 0.0 then x.Floor else -((-x).Floor)
  }

  /** uint16(i). */
  function ToPort(i: int): Port {
    i % 65536
  }

  function Signed(i: int): string {
    if i < 0 then "-" + Decimal(-i) else Decimal(i)
  }

  /** fmt.Sprintf("%v", v); how a float is printed is left open. */
  function Show(floats: real -> string, v: Value): string {
    match v
    case Null => "<nil>"
    case Bool(b) => if b then "true" else "false"
    case Str(s) => s
    case Int(i) => Signed(i)
    case Uint16(p) => Decimal(p)
    case Float(x) => floats(x)
  }

  // ---------- looking up one setting ----------

  /** getConfigEntry: the node's flags come first, then its config file. */
  function GetConfigEntry(flags: FlagMap, file: FlagMap, key: Key, default: string): Result<string, Error> {
    if key in flags then
      if flags[key].Str? then Ok(flags[key].s) else Err(WrongFlagType)
    else if key in file then
      if file[key].Str? then Ok(file[key].s) else Err(WrongFlagType)
    else Ok(default)
  }

  /** What the operating system answers while one port is resolved: the random
      free port, whether the chosen port is taken, the replacement, and whether
      the final port is free. */
  datatype PortEnv = PortEnv(pick: Option<Port>, taken: bool, replacement: Option<Port>, free: bool)

  /** The port written in the flags or in the config file. */
  function ConfiguredPort(flags: FlagMap, file: FlagMap, key: Key): Result<Option<Port>, Error> {
    if key in flags then
      match flags[key]
      case Int(i) => Ok(Some(ToPort(i)))
      case Float(x) => Ok(Some(ToPort(Truncate(x))))
      case _ => Err(WrongFlagType)
    else if key in file then
      if file[key].Float? then Ok(Some(ToPort(Truncate(file[key].x)))) else Err(WrongFlagType)
    else Ok(None)
  }

  /** getPort. */
  function GetPort(flags: FlagMap, file: FlagMap, key: Key, reassign: bool, e: PortEnv): Result<Port, Error> {
    match ConfiguredPort(flags, file, key)
    case Err(err) => Err(err)
    case Ok(configured) =>
      var chosen := if configured.Some? then configured else e.pick;
      if chosen.None? then Err(NoFreePort)
      else
        var final := if reassign && e.taken then e.replacement else chosen;
        if final.None? then Err(NoFreePort)
        else if !e.free then Err(PortTaken)
        else Ok(final.value)
  }

  /** Without reassignment a configured port is either used or refused. */
  lemma ConfiguredPortIsKept(flags: FlagMap, file: FlagMap, key: Key, e: PortEnv, p: Port)
    requires key in flags && (flags[key] == Int(p) || flags[key] == Float(p as real))
    ensures GetPort(flags, file, key, false, e) == if e.free then Ok(p) else Err(PortTaken)
  {
    assert Truncate(p as real) == p;
  }

  // ---------- merging ----------

  /** addNetworkFlags: whatever order the network's flags are visited in, a flag
      of the node wins over one of the network. */
  method AddNetworkFlags(network: FlagMap, node: FlagMap) returns (merged: FlagMap)
    ensures merged == network + node
  {
    merged := node;
    var rest := network.Keys;
    while rest != {}
      invariant rest <= network.Keys
      invariant merged == (map k | k in network && k !in rest :: network[k]) + node
      decreases rest
    {
      var k :| k in rest;
      if k !in merged {
        merged := merged[k := network[k]];
      }
      rest := rest - {k};
    }
  }

  const LOCAL_NETWORK_ID: nat := 12345

  /** The files every node gets; the genesis and the config file only where needed. */
  function FileKeys(networkId: nat, hasConfigFile: bool): set<Key> {
    {StakingTlsKeyFile, StakingCertFile, StakingSignerKeyFile, ChainConfigDir, SubnetConfigDir}
    + (if networkId != LOCAL_NETWORK_ID then {Genesis} else {})
    + (if hasConfigFile then {ConfigFile} else {})
  }

  function FileName(k: Key): string {
    match k
    case StakingTlsKeyFile => "staking.key"
    case StakingCertFile => "staking.crt"
    case StakingSignerKeyFile => "signer.key"
    case Genesis => "genesis.json"
    case ConfigFile => "config.json"
    case ChainConfigDir => "chainConfigs"
    case SubnetConfigDir => "subnetConfigs"
    case _ => ""
  }

  /** The flags that point the node to the files written for it. */
  function FileFlags(networkId: nat, hasConfigFile: bool, dir: string): ArgMap {
    map k | k in FileKeys(networkId, hasConfigFile) :: JoinPath(dir, FileName(k))
  }

  datatype Beacon = Beacon(id: string, port: Port)

  /** The comma separated lists of the beacon set. */
  function IdsArg(beacons: seq<Beacon>): string {
    Join(seq(|beacons|, i requires 0 <= i < |beacons| => beacons[i].id), ',')
  }

  function IpsArg(beacons: seq<Beacon>): string {
    Join(seq(|beacons|, i requires 0 <= i < |beacons| => "[::1]:" + Decimal(beacons[i].port)), ',')
  }

  /** What does not change over the life of a network: its ID, the port policy,
      the node ID a staking certificate stands for, and how floats print. */
  datatype Site = Site(networkId: nat, reassign: bool, idOf: string -> Option<string>, floats: real -> string)

  /** What the outside answers while a command line is built; older(v) says that
      the node's version is before v. */
  datatype ArgsEnv = ArgsEnv(api: PortEnv, p2p: PortEnv, filesWritten: bool, older: string -> bool)

  datatype Resolved = Resolved(
    args: ArgMap,
    apiPort: Port, p2pPort: Port,
    dataDir: string, dbDir: string, logsDir: string, pluginDir: string, httpHost: string)

  const DEFAULT_KEYS := {NetworkName, DataDir, DbDir, LogDir, HttpPort, StakingPort, BootstrapIps, BootstrapIds}

  function DefaultValue(site: Site, beacons: seq<Beacon>, r: Resolved, k: Key): string {
    match k
    case NetworkName => Decimal(site.networkId)
    case DataDir => r.dataDir
    case DbDir => r.dbDir
    case LogDir => r.logsDir
    case HttpPort => Decimal(r.apiPort)
    case StakingPort => Decimal(r.p2pPort)
    case BootstrapIps => IpsArg(beacons)
    case BootstrapIds => IdsArg(beacons)
    case _ => ""
  }

  function Defaults(site: Site, beacons: seq<Beacon>, r: Resolved): ArgMap {
    map k | k in DEFAULT_KEYS :: DefaultValue(site, beacons, r, k)
  }

  function NodeLayer(site: Site, flags: FlagMap): ArgMap {
    map k | k in flags && k !in PORT_KEYS :: Show(site.floats, flags[k])
  }

  /** The settings of a node before its version is considered: everything but the args of Resolved. */
  function Settings(site: Site, flags: FlagMap, file: FlagMap, nodeDir: string, e: ArgsEnv): Result<Resolved, Error> {
    var httpHost := GetConfigEntry(flags, file, HttpHost, "");
    var dataDir := GetConfigEntry(flags, file, DataDir, nodeDir);
    var pluginDir := GetConfigEntry(flags, file, PluginDir, "");
    var apiPort := GetPort(flags, file, HttpPort, site.reassign, e.api);
    var p2pPort := GetPort(flags, file, StakingPort, site.reassign, e.p2p);
    if httpHost.Err? then Err(httpHost.error)
    else if dataDir.Err? then Err(dataDir.error)
    else if pluginDir.Err? then Err(pluginDir.error)
    else
      var dbDir := GetConfigEntry(flags, file, DbDir, JoinPath(dataDir.value, "db"));
      var logsDir := GetConfigEntry(flags, file, LogDir, JoinPath(dataDir.value, "logs"));
      if dbDir.Err? then Err(dbDir.error)
      else if logsDir.Err? then Err(logsDir.error)
      else if apiPort.Err? then Err(apiPort.error)
      else if p2pPort.Err? then Err(p2pPort.error)
      else if !e.filesWritten then Err(FileWriteFailed)
      else Ok(Resolved(map[], apiPort.value, p2pPort.value, dataDir.value, dbDir.value, logsDir.value,
                       pluginDir.value, httpHost.value))
  }

  /** Defaults, overridden by the file flags, overridden by the node's flags. */
  function Layers(site: Site, beacons: seq<Beacon>, flags: FlagMap, hasConfigFile: bool, r: Resolved): ArgMap {
    Defaults(site, beacons, r)
    + FileFlags(site.networkId, hasConfigFile, r.dataDir)
    + NodeLayer(site, flags)
  }

  // ---------- flags of older node versions ----------

  /** One line of deprecatedFlagsSupport.json. */
  datatype Renaming = Renaming(version: string, oldName: Key, newName: Key, parentDir: bool)

  const PLUGIN_RENAMING := Renaming("v0.4.1", BuildDir, PluginDir, true)
  const SUBNETS_RENAMING := Renaming("v0.4.1", WhitelistedSubnets, TrackSubnets, false)
  const RENAMINGS := [PLUGIN_RENAMING, SUBNETS_RENAMING]

  function Rename(r: Renaming, flags: ArgMap): ArgMap {
    if r.newName in flags then
      var v := flags[r.newName];
      (if v != "" then flags[r.oldName := if r.parentDir then Dir(TrimSlash(v)) else v] else flags) - {r.newName}
    else flags
  }

  /** The flags as a node version knows them; dated says that it is before v0.4.1. */
  function ForVersion(dated: bool, flags: ArgMap): ArgMap {
    if dated then Rename(SUBNETS_RENAMING, Rename(PLUGIN_RENAMING, flags)) else flags
  }

  /** getFlagsForAvagoVersion; older(v) says that the node's version is before v. */
  method FlagsForVersion(older: string -> bool, given: ArgMap) returns (flags: ArgMap)
    ensures flags == ForVersion(older("v0.4.1"), given)
  {
    flags := given;
    for i := 0 to |RENAMINGS|
      invariant i == 0 ==> flags == given
      invariant i == 1 ==> flags == if older("v0.4.1") then Rename(PLUGIN_RENAMING, given) else given
      invariant i == 2 ==> flags == ForVersion(older("v0.4.1"), given)
    {
      var r := RENAMINGS[i];
      if older(r.version) {
        if r.newName in flags {
          var v := flags[r.newName];
          if v != "" {
            if r.parentDir {
              v := Dir(TrimSlash(v));
            }
            flags := flags[r.oldName := v];
          }
          flags := flags - {r.newName};
        }
      }
    }
  }

  // ---------- buildArgs ----------

  /** The whole command line of a node. */
  function BuildArgs(site: Site, beacons: seq<Beacon>, flags: FlagMap, file: Option<FlagMap>, nodeDir: string, e: ArgsEnv)
    : Result<Resolved, Error>
  {
    match Settings(site, flags, if file.Some? then file.value else map[], nodeDir, e)
    case Err(x) => Err(x)
    case Ok(r) => Ok(r.(args := ForVersion(e.older("v0.4.1"), Layers(site, beacons, flags, file.Some?, r))))
  }

  /** Writes one map over another, in any order. */
  method Overlay<K(==), V>(base: map<K, V>, over: map<K, V>) returns (all: map<K, V>)
    ensures all == base + over
  {
    all := base;
    var rest := over.Keys;
    while rest != {}
      invariant rest <= over.Keys
      invariant all == base + (map k | k in over && k !in rest :: over[k])
      decreases rest
    {
      var k :| k in rest;
      all, rest := all[k := over[k]], rest - {k};
    }
  }

  /** Prints the node's flags over the others, in any order, leaving out the ports. */
  method OverlayNodeFlags(site: Site, base: ArgMap, flags: FlagMap) returns (all: ArgMap)
    ensures all == base + NodeLayer(site, flags)
  {
    all := base;
    var rest := flags.Keys;
    while rest != {}
      invariant rest <= flags.Keys
      invariant all == base + (map k | k in flags && k !in rest && k !in PORT_KEYS :: Show(site.floats, flags[k]))
      decreases rest
    {
      var k :| k in rest;
      if k !in PORT_KEYS {
        all := all[k := Show(site.floats, flags[k])];
      }
      rest := rest - {k};
    }
  }

  /** buildArgs: for every order in which the flag maps are visited. */
  method ComputeArgs(site: Site, beacons: seq<Beacon>, flags: FlagMap, file: Option<FlagMap>, nodeDir: string, e: ArgsEnv)
    returns (out: Result<Resolved, Error>)
    ensures out == BuildArgs(site, beacons, flags, file, nodeDir, e)
  {
    var settings := Settings(site, flags, if file.Some? then file.value else map[], nodeDir, e);
    if settings.Err? { return Err(settings.error); }
    var r := settings.value;
    var all := Defaults(site, beacons, r);
    all := Overlay(all, FileFlags(site.networkId, file.Some?, r.dataDir));
    all := OverlayNodeFlags(site, all, flags);
    all := FlagsForVersion(e.older, all);
    out := Ok(r.(args := all));
  }

  /** The ways in which a command line cannot be built. */
  lemma BuildArgsErrors(site: Site, beacons: seq<Beacon>, flags: FlagMap, file: Option<FlagMap>, nodeDir: string, e: ArgsEnv)
    requires BuildArgs(site, beacons, flags, file, nodeDir, e).Err?
    ensures BuildArgs(site, beacons, flags, file, nodeDir, e).error in {WrongFlagType, NoFreePort, PortTaken, FileWriteFailed}
  {
    hide JoinPath, Layers, ForVersion;
  }

  // ---------- what the command line says ----------

  /** The keys a renaming can touch. */
  const RENAMED := {BuildDir, PluginDir, WhitelistedSubnets, TrackSubnets}

  /** No other flag is touched. */
  lemma TranslationKeepsOthers(dated: bool, flags: ArgMap, k: Key)
    requires k !in RENAMED
    ensures (k in ForVersion(dated, flags) <==> k in flags) && (k in flags ==> ForVersion(dated, flags)[k] == flags[k])
  {
  }

  /** For an older version the new names are gone and their values, if they say
      something, are found under the old names; for a current one nothing changes. */
  lemma TranslationRenames(dated: bool, flags: ArgMap)
    ensures var out := ForVersion(dated, flags);
            && (!dated ==> out == flags)
            && (dated ==> PluginDir !in out && TrackSubnets !in out)
            && (dated && TrackSubnets in flags && flags[TrackSubnets] != ""
                ==> WhitelistedSubnets in out && out[WhitelistedSubnets] == flags[TrackSubnets])
            && (dated && PluginDir in flags && flags[PluginDir] != ""
                ==> BuildDir in out && out[BuildDir] == Dir(TrimSlash(flags[PluginDir])))
  {
  }

  /** A second translation changes nothing. */
  lemma TranslationIsIdempotent(dated: bool, flags: ArgMap)
    ensures ForVersion(dated, ForVersion(dated, flags)) == ForVersion(dated, flags)
  {
    TranslationRenames(dated, flags);
  }

  /** The directories and ports of Settings come from the flags where the flags have them. */
  lemma SettingsFollowFlags(site: Site, flags: FlagMap, file: FlagMap, nodeDir: string, e: ArgsEnv)
    requires Settings(site, flags, file, nodeDir, e).Ok?
    ensures var r := Settings(site, flags, file, nodeDir, e).value;
            && (DataDir in flags ==> flags[DataDir] == Str(r.dataDir))
            && (DbDir in flags ==> flags[DbDir] == Str(r.dbDir))
            && (LogDir in flags ==> flags[LogDir] == Str(r.logsDir))
            && GetPort(flags, file, HttpPort, site.reassign, e.api) == Ok(r.apiPort)
            && GetPort(flags, file, StakingPort, site.reassign, e.p2p) == Ok(r.p2pPort)
  {
  }

  /** Which layer a flag comes from. */
  lemma LayerOf(site: Site, beacons: seq<Beacon>, flags: FlagMap, hasConfigFile: bool, r: Resolved, k: Key)
    ensures var all := Layers(site, beacons, flags, hasConfigFile, r);
            if k in flags && k !in PORT_KEYS then k in all && all[k] == Show(site.floats, flags[k])
            else if k in FileKeys(site.networkId, hasConfigFile) then k in all && all[k] == JoinPath(r.dataDir, FileName(k))
            else if k in DEFAULT_KEYS then k in all && all[k] == DefaultValue(site, beacons, r, k)
            else k !in all
  {
    hide JoinPath, FileName, DefaultValue, Show;
  }

  /** What a translated flag looks like, if it is none of the renamed ones. */
  lemma PassedOn(site: Site, beacons: seq<Beacon>, flags: FlagMap, hasConfigFile: bool, r: Resolved,
                 dated: bool, k: Key)
    requires k !in RENAMED
    requires k in DEFAULT_KEYS || (k in flags && k !in PORT_KEYS)
    ensures var args := ForVersion(dated, Layers(site, beacons, flags, hasConfigFile, r));
            k in args
            && args[k] == if k in flags && k !in PORT_KEYS then Show(site.floats, flags[k])
                          else DefaultValue(site, beacons, r, k)
  {
    hide Layers, ForVersion, DefaultValue, JoinPath, FileName, Show;
    LayerOf(site, beacons, flags, hasConfigFile, r, k);
    TranslationKeepsOthers(dated, Layers(site, beacons, flags, hasConfigFile, r), k);
  }

  /** The process is told the ports, in decimal, and the directories that are recorded for it. */
  lemma RecordedIsPassed(site: Site, beacons: seq<Beacon>, flags: FlagMap, file: Option<FlagMap>, nodeDir: string, e: ArgsEnv)
    requires BuildArgs(site, beacons, flags, file, nodeDir, e).Ok?
    ensures var r := BuildArgs(site, beacons, flags, file, nodeDir, e).value;
            && {HttpPort, StakingPort, DataDir, DbDir, LogDir} <= r.args.Keys
            && Says(r.args[HttpPort], r.apiPort) && Says(r.args[StakingPort], r.p2pPort)
            && r.args[DataDir] == r.dataDir && r.args[DbDir] == r.dbDir && r.args[LogDir] == r.logsDir
  {
    hide Settings, Layers, ForVersion, JoinPath;
    var file' := if file.Some? then file.value else map[];
    var r := Settings(site, flags, file', nodeDir, e).value;
    SettingsFollowFlags(site, flags, file', nodeDir, e);
    DecimalSays(r.apiPort);
    DecimalSays(r.p2pPort);
    forall k | k in {HttpPort, StakingPort, DataDir, DbDir, LogDir}
      ensures var args := ForVersion(e.older("v0.4.1"), Layers(site, beacons, flags, file.Some?, r));
              k in args && args[k] == DefaultValue(site, beacons, r, k)
    {
      PassedOn(site, beacons, flags, file.Some?, r, e.older("v0.4.1"), k);
    }
  }

  /** Every other flag of a node reaches its process as the node has it, and the
      beacons reach it unless its flags name others. */
  lemma NodeFlagIsPassed(site: Site, beacons: seq<Beacon>, flags: FlagMap, file: Option<FlagMap>, nodeDir: string,
                         e: ArgsEnv, k: Key)
    requires BuildArgs(site, beacons, flags, file, nodeDir, e).Ok?
    ensures var args := BuildArgs(site, beacons, flags, file, nodeDir, e).value.args;
            && (k in flags && k !in PORT_KEYS && k !in RENAMED ==> k in args && args[k] == Show(site.floats, flags[k]))
            && (k == BootstrapIds && k !in flags ==> k in args && args[k] == IdsArg(beacons))
            && (k == BootstrapIps && k !in flags ==> k in args && args[k] == IpsArg(beacons))
  {
    hide Settings, Layers, ForVersion, JoinPath;
    var r := Settings(site, flags, if file.Some? then file.value else map[], nodeDir, e).value;
    if k !in RENAMED && (k in DEFAULT_KEYS || (k in flags && k !in PORT_KEYS)) {
      PassedOn(site, beacons, flags, file.Some?, r, e.older("v0.4.1"), k);
    }
  }

  /** The tracked subnets reach the process under the name its version knows. */
  lemma TrackedIsPassed(site: Site, beacons: seq<Beacon>, flags: FlagMap, file: Option<FlagMap>, nodeDir: string, e: ArgsEnv)
    requires BuildArgs(site, beacons, flags, file, nodeDir, e).Ok?
    requires TrackSubnets in flags && flags[TrackSubnets].Str? && flags[TrackSubnets].s != ""
    ensures var args := BuildArgs(site, beacons, flags, file, nodeDir, e).value.args;
            var k := if e.older("v0.4.1") then WhitelistedSubnets else TrackSubnets;
            k in args && args[k] == flags[TrackSubnets].s
  {
    hide Settings, Layers, ForVersion, JoinPath;
    var r := Settings(site, flags, if file.Some? then file.value else map[], nodeDir, e).value;
    LayerOf(site, beacons, flags, file.Some?, r, TrackSubnets);
    TranslationRenames(e.older("v0.4.1"), Layers(site, beacons, flags, file.Some?, r));
  }

  /** A node's flags with the ports and directories that were recorded for it. */
  function Pinned(flags: FlagMap, dataDir: string, dbDir: string, logsDir: string, apiPort: Port, p2pPort: Port): FlagMap {
    flags[DataDir := Str(dataDir)][DbDir := Str(dbDir)][LogDir := Str(logsDir)]
         [HttpPort := Int(apiPort)][StakingPort := Int(p2pPort)]
  }

  /** Started again from pinned flags, with whatever network flags are merged
      below them, a node gets the recorded directories, and without
      reassignment the recorded ports. */
  lemma PinnedIsRederived(site: Site, beacons: seq<Beacon>, network: FlagMap, flags: FlagMap, file: Option<FlagMap>,
                          nodeDir: string, e: ArgsEnv,
                          dataDir: string, dbDir: string, logsDir: string, apiPort: Port, p2pPort: Port)
    requires !site.reassign
    requires BuildArgs(site, beacons, network + Pinned(flags, dataDir, dbDir, logsDir, apiPort, p2pPort), file, nodeDir, e).Ok?
    ensures var r := BuildArgs(site, beacons, network + Pinned(flags, dataDir, dbDir, logsDir, apiPort, p2pPort),
                               file, nodeDir, e).value;
            r.dataDir == dataDir && r.dbDir == dbDir && r.logsDir == logsDir && r.apiPort == apiPort && r.p2pPort == p2pPort
  {
    hide Settings, Layers, ForVersion, JoinPath;
    var all := network + Pinned(flags, dataDir, dbDir, logsDir, apiPort, p2pPort);
    var file' := if file.Some? then file.value else map[];
    SettingsFollowFlags(site, all, file', nodeDir, e);
    assert all[DataDir] == Str(dataDir) && all[DbDir] == Str(dbDir) && all[LogDir] == Str(logsDir);
    ConfiguredPortIsKept(all, file', HttpPort, e.api, apiPort);
    ConfiguredPortIsKept(all, file', StakingPort, e.p2p, p2pPort);
  }

  // ---------- undoing the renaming ----------

  /** One deprecated flag: fixDeprecatedAvagoFlags does this twice. */
  function FixOne(flags: FlagMap, oldName: Key, newName: Key, plugins: bool): Result<FlagMap, Error> {
    if oldName !in flags then Ok(flags)
    else if !flags[oldName].Str? then Err(WrongFlagType)
    else
      var v := flags[oldName].s;
      Ok((if v == "" then flags else flags[newName := Str(if plugins then JoinPath(v, "plugins") else v)]) - {oldName})
  }

  /** fixDeprecatedAvagoFlags. */
  function FixDeprecated(flags: FlagMap): Result<FlagMap, Error> {
    match FixOne(flags, WhitelistedSubnets, TrackSubnets, false)
    case Err(x) => Err(x)
    case Ok(fixed) => FixOne(fixed, BuildDir, PluginDir, true)
  }

  /** Strings as flag values. */
  function Lift(m: ArgMap): FlagMap {
    map k | k in m :: Str(m[k])
  }

  /** The renamed flags that are present but empty; a translation drops them. */
  function EmptyRenamed(flags: ArgMap): set<Key> {
    set k: Key | k in flags && (k == PluginDir || k == TrackSubnets) && flags[k] == ""
  }

  /** Fixing a command line that was translated for an older version gives the
      flags back, up to empty renamed ones, exactly when the plugin directory,
      if there is one, is a cleaned path that ends in "plugins". */
  lemma FixUndoesTranslation(flags: ArgMap)
    requires BuildDir !in flags && WhitelistedSubnets !in flags
    ensures FixDeprecated(Lift(ForVersion(true, flags))) == Ok(Lift(flags - EmptyRenamed(flags)))
            <==>
            (PluginDir in flags && flags[PluginDir] != ""
             ==> Clean(flags[PluginDir]) == flags[PluginDir] && LastSegment(flags[PluginDir]) == "plugins")
  {
    hide FixDeprecated, ForVersion, Clean, Dir, TrimSlash, JoinPath;
    FixAfterTranslation(flags);
    var kept := flags - EmptyRenamed(flags);
    if PluginDir in kept {
      ParentThenJoin(flags[PluginDir], "plugins");
      var rejoined := JoinPath(Dir(TrimSlash(flags[PluginDir])), "plugins");
      assert Lift(kept)[PluginDir] == Str(flags[PluginDir]);
      assert Lift(kept)[PluginDir := Str(rejoined)][PluginDir] == Str(rejoined);
      assert rejoined == flags[PluginDir] ==> Lift(kept)[PluginDir := Str(rejoined)] == Lift(kept);
    } else {
      assert PluginDir !in flags || flags[PluginDir] == "";
    }
  }

  /** What the two steps make of the flags. */
  lemma FixAfterTranslation(flags: ArgMap)
    requires BuildDir !in flags && WhitelistedSubnets !in flags
    ensures var kept := flags - EmptyRenamed(flags);
            FixDeprecated(Lift(ForVersion(true, flags)))
            == Ok(if PluginDir in kept then
                    Lift(kept)[PluginDir := Str(JoinPath(Dir(TrimSlash(flags[PluginDir])), "plugins"))]
                  else Lift(kept))
  {
    hide Clean, Dir, TrimSlash, JoinPath;
    var kept := flags - EmptyRenamed(flags);
    var base := flags - {PluginDir};
    var base' := kept - {PluginDir};
    var out := Rename(PLUGIN_RENAMING, flags);
    FixTracked(out);
    if PluginDir in kept {
      var parent := Dir(TrimSlash(flags[PluginDir]));
      DirNotEmpty(TrimSlash(flags[PluginDir]));
      assert out - EmptyTracked(out) == base'[BuildDir := parent];
      FixPlugin(base', parent);
      assert Lift(base')[PluginDir := Str(JoinPath(parent, "plugins"))]
          == Lift(kept)[PluginDir := Str(JoinPath(parent, "plugins"))];
    } else {
      assert out - EmptyTracked(out) == kept == base';
      FixPlugin(base', ".");
    }
  }

  function EmptyTracked(flags: ArgMap): set<Key> {
    set k: Key | k in flags && k == TrackSubnets && flags[k] == ""
  }

  lemma FixTracked(flags: ArgMap)
    requires WhitelistedSubnets !in flags
    ensures FixOne(Lift(Rename(SUBNETS_RENAMING, flags)), WhitelistedSubnets, TrackSubnets, false)
         == Ok(Lift(flags - EmptyTracked(flags)))
  {
    var fixed := FixOne(Lift(Rename(SUBNETS_RENAMING, flags)), WhitelistedSubnets, TrackSubnets, false);
    if TrackSubnets in flags && flags[TrackSubnets] != "" {
      assert Rename(SUBNETS_RENAMING, flags) == flags[WhitelistedSubnets := flags[TrackSubnets]] - {TrackSubnets};
      assert fixed.value == Lift(flags);
      assert flags - EmptyTracked(flags) == flags;
    } else {
      assert Rename(SUBNETS_RENAMING, flags) == flags - {TrackSubnets};
      assert flags - EmptyTracked(flags) == flags - {TrackSubnets};
      assert fixed.value == Lift(flags - {TrackSubnets});
    }
  }

  lemma FixPlugin(flags: ArgMap, parent: string)
    requires BuildDir !in flags && PluginDir !in flags && parent != ""
    ensures FixOne(Lift(flags[BuildDir := parent]), BuildDir, PluginDir, true)
         == Ok(Lift(flags)[PluginDir := Str(JoinPath(parent, "plugins"))])
    ensures FixOne(Lift(flags), BuildDir, PluginDir, true) == Ok(Lift(flags))
  {
    assert FixOne(Lift(flags[BuildDir := parent]), BuildDir, PluginDir, true).value
        == Lift(flags)[PluginDir := Str(JoinPath(parent, "plugins"))];
  }

  lemma DirNotEmpty(p: string)
    ensures Dir(p) != ""
  {
    var u := UpToLastSlash(p);
    FoldNormal(Rooted(u), [], Split(u, '/'));
    var segs := Fold(Rooted(u), [], Split(u, '/'));
    if segs != [] { assert PlainSegment(segs[0]); JoinHead(segs, '/'); }
  }
}
