/** What the command line of a node says, flag by flag, in terms of the node's flags, its
    config file and the outside alone (local/helpers.go, buildArgs in local/network.go). */
module CommandLine {
  import opened Common
  import opened Strings
  import opened Paths
  import opened Flags

  // ---------- single settings ----------

  /** A setting is the flag's, else the config file's, else the default. */
  predicate Chosen(flags: FlagMap, file: FlagMap, k: Key, default: string, v: string) {
    if k in flags then flags[k] == Str(v)
    else if k in file then file[k] == Str(v)
    else v == default
  }

  /** The flag, or else the config file, does not give anything but a string. */
  predicate StringIfAny(flags: FlagMap, file: FlagMap, k: Key) {
    if k in flags then flags[k].Str? else k in file ==> file[k].Str?
  }

  lemma EntryIsChosen(flags: FlagMap, file: FlagMap, k: Key, default: string)
    ensures var x := GetConfigEntry(flags, file, k, default);
            && (x.Ok? <==> StringIfAny(flags, file, k))
            && (x.Ok? ==> Chosen(flags, file, k, default, x.value))
            && (x.Err? ==> x.error == WrongFlagType)
  {
  }

  /** A float without its fraction. */
  predicate WholePart(x: real, t: int) {
    if x >= 0.0 then t as real <= x < t as real + 1.0 else t as real - 1.0 < x <= t as real
  }

  lemma TruncateMeans(x: real)
    ensures WholePart(x, Truncate(x))
    ensures forall t: int :: WholePart(x, t) ==> t == Truncate(x)
  {
    if x < 0.0 {
      assert (-x).Floor as real <= -x < (-x).Floor as real + 1.0;
    }
  }

  /** A value gives a port, in 16 bits. */
  ghost predicate GivesPort(v: Value, p: Port) {
    exists t: int :: Fits16(t, p) && (v == Int(t) || (v.Float? && WholePart(v.x, t)))
  }

  predicate Fits16(t: int, p: Port) {
    (t - p) % 65536 == 0
  }

  /** The flag gives a number, or else the config file a float, if they give anything. */
  predicate NumberIfAny(flags: FlagMap, file: FlagMap, k: Key) {
    if k in flags then flags[k].Int? || flags[k].Float? else k in file ==> file[k].Float?
  }

  /** The port a node gets: a replacement if the port is taken and may be reassigned, else the
      flag's, else the config file's, else a random one; and in any case it is free. */
  ghost predicate PortChosen(flags: FlagMap, file: FlagMap, k: Key, reassign: bool, e: PortEnv, p: Port) {
    && e.free
    && (reassign && e.taken ==> e.replacement == Some(p))
    && (!(reassign && e.taken) ==>
          if k in flags then GivesPort(flags[k], p)
          else if k in file then GivesPort(file[k], p)
          else e.pick == Some(p))
  }

  /** When there is such a port at all. */
  predicate PortAvailable(flags: FlagMap, file: FlagMap, k: Key, reassign: bool, e: PortEnv) {
    && NumberIfAny(flags, file, k)
    && (k !in flags && k !in file ==> e.pick.Some?)
    && (reassign && e.taken ==> e.replacement.Some?)
    && e.free
  }

  /** Why there is none. */
  predicate NoPortBecause(flags: FlagMap, file: FlagMap, k: Key, reassign: bool, e: PortEnv, err: Error) {
    if !NumberIfAny(flags, file, k) then err == WrongFlagType
    else if (k !in flags && k !in file && e.pick.None?) || (reassign && e.taken && e.replacement.None?) then err == NoFreePort
    else err == PortTaken
  }

  lemma ToPortFits(t: int)
    ensures Fits16(t, ToPort(t)) && forall p: Port :: Fits16(t, p) ==> p == ToPort(t)
  {
  }

  /** getPort, with its failures. */
  lemma PortIsChosen(flags: FlagMap, file: FlagMap, k: Key, reassign: bool, e: PortEnv)
    ensures var x := GetPort(flags, file, k, reassign, e);
            && (x.Ok? <==> PortAvailable(flags, file, k, reassign, e))
            && (x.Ok? ==> PortChosen(flags, file, k, reassign, e, x.value))
            && (x.Err? ==> NoPortBecause(flags, file, k, reassign, e, x.error))
  {
    hide GivesPort, ConfiguredPort;
    ConfiguredIs(flags, file, k);
  }

  lemma ConfiguredIs(flags: FlagMap, file: FlagMap, k: Key)
    ensures var x := ConfiguredPort(flags, file, k);
            && (x.Ok? <==> NumberIfAny(flags, file, k))
            && (x.Err? ==> x.error == WrongFlagType)
            && (x.Ok? ==> (x.value.Some? <==> k in flags || k in file))
            && (x.Ok? && k in flags ==> GivesPort(flags[k], x.value.value))
            && (x.Ok? && k in file && k !in flags ==> GivesPort(file[k], x.value.value))
  {
    hide GivesPort, ToPort, Truncate;
    if k in flags || k in file { NumberGivesPort(if k in flags then flags[k] else file[k]); }
  }

  lemma NumberGivesPort(v: Value)
    ensures v.Int? ==> GivesPort(v, ToPort(v.i))
    ensures v.Float? ==> GivesPort(v, ToPort(Truncate(v.x)))
  {
    if v.Int? || v.Float? {
      var t := if v.Int? then v.i else Truncate(v.x);
      if v.Float? { TruncateMeans(v.x); }
      ToPortFits(t);
    }
  }

  /** A value gives one port only. */
  lemma OnePort(v: Value, p: Port, q: Port)
    requires GivesPort(v, p) && GivesPort(v, q)
    ensures p == q
  {
    hide ToPort, Fits16, WholePart;
    var s :| Fits16(s, p) && (v == Int(s) || (v.Float? && WholePart(v.x, s)));
    var t :| Fits16(t, q) && (v == Int(t) || (v.Float? && WholePart(v.x, t)));
    if v.Float? { TruncateMeans(v.x); }
    ToPortFits(s);
  }

  // ---------- all settings ----------

  /** The directories, the host and the ports of a node. */
  ghost predicate SettingsChosen(site: Site, flags: FlagMap, file: FlagMap, nodeDir: string, e: ArgsEnv, r: Resolved) {
    && Chosen(flags, file, HttpHost, "", r.httpHost)
    && Chosen(flags, file, DataDir, nodeDir, r.dataDir)
    && Chosen(flags, file, PluginDir, "", r.pluginDir)
    && Chosen(flags, file, DbDir, JoinPath(r.dataDir, "db"), r.dbDir)
    && Chosen(flags, file, LogDir, JoinPath(r.dataDir, "logs"), r.logsDir)
    && PortChosen(flags, file, HttpPort, site.reassign, e.api, r.apiPort)
    && PortChosen(flags, file, StakingPort, site.reassign, e.p2p, r.p2pPort)
  }

  /** When a command line can be built. */
  predicate Buildable(site: Site, flags: FlagMap, file: FlagMap, e: ArgsEnv) {
    && (forall k :: k in {HttpHost, DataDir, PluginDir, DbDir, LogDir} ==> StringIfAny(flags, file, k))
    && PortAvailable(flags, file, HttpPort, site.reassign, e.api)
    && PortAvailable(flags, file, StakingPort, site.reassign, e.p2p)
    && e.filesWritten
  }

  /** Why none can be built. */
  predicate NotBuiltBecause(site: Site, flags: FlagMap, file: FlagMap, e: ArgsEnv, err: Error) {
    if exists k :: k in {HttpHost, DataDir, PluginDir, DbDir, LogDir} && !StringIfAny(flags, file, k) then err == WrongFlagType
    else if !PortAvailable(flags, file, HttpPort, site.reassign, e.api)
    then NoPortBecause(flags, file, HttpPort, site.reassign, e.api, err)
    else if !PortAvailable(flags, file, StakingPort, site.reassign, e.p2p)
    then NoPortBecause(flags, file, StakingPort, site.reassign, e.p2p, err)
    else err == FileWriteFailed
  }

  lemma SettingsAreChosen(site: Site, flags: FlagMap, file: FlagMap, nodeDir: string, e: ArgsEnv)
    ensures var x := Settings(site, flags, file, nodeDir, e);
            && (x.Ok? <==> Buildable(site, flags, file, e))
            && (x.Ok? ==> SettingsChosen(site, flags, file, nodeDir, e, x.value))
            && (x.Err? ==> NotBuiltBecause(site, flags, file, e, x.error))
  {
    hide GetConfigEntry, GetPort, Chosen, PortChosen, PortAvailable, StringIfAny, JoinPath, NoPortBecause;
    EntryIsChosen(flags, file, HttpHost, "");
    EntryIsChosen(flags, file, DataDir, nodeDir);
    EntryIsChosen(flags, file, PluginDir, "");
    PortIsChosen(flags, file, HttpPort, site.reassign, e.api);
    PortIsChosen(flags, file, StakingPort, site.reassign, e.p2p);
    var dataDir := GetConfigEntry(flags, file, DataDir, nodeDir);
    if dataDir.Ok? {
      EntryIsChosen(flags, file, DbDir, JoinPath(dataDir.value, "db"));
      EntryIsChosen(flags, file, LogDir, JoinPath(dataDir.value, "logs"));
    }
    assert Buildable(site, flags, file, e) ==>
             StringIfAny(flags, file, HttpHost) && StringIfAny(flags, file, DataDir) && StringIfAny(flags, file, PluginDir)
             && StringIfAny(flags, file, DbDir) && StringIfAny(flags, file, LogDir);
  }

  // ---------- printed values ----------

  /** fmt's %v of a value. */
  predicate Printed(floats: real -> string, v: Value, s: string) {
    match v
    case Null => s == "<nil>"
    case Bool(b) => s == if b then "true" else "false"
    case Str(x) => s == x
    case Int(i) => if i >= 0 then Says(s, i) else s != "" && s[0] == '-' && Says(s[1..], -i)
    case Uint16(p) => Says(s, p)
    case Float(x) => s == floats(x)
  }

  lemma ShowPrints(floats: real -> string, v: Value)
    ensures Printed(floats, v, Show(floats, v))
  {
    match v
    case Int(i) =>
      DecimalSays(if i >= 0 then i else -i);
      if i < 0 { assert Show(floats, v)[1..] == Decimal(-i); }
    case Uint16(p) => DecimalSays(p);
    case _ =>
  }

  // ---------- the command line ----------

  /** The flags every node gets, and those it gets only for some networks and configs. */
  predicate Expected(networkId: nat, hasConfigFile: bool, k: Key) {
    || k in {NetworkName, DataDir, DbDir, LogDir, HttpPort, StakingPort, BootstrapIps, BootstrapIds}
    || k in {StakingTlsKeyFile, StakingCertFile, StakingSignerKeyFile, ChainConfigDir, SubnetConfigDir}
    || (k == Genesis && networkId != 12345)
    || (k == ConfigFile && hasConfigFile)
  }

  /** The value of such a flag, if the node's flags do not give another. */
  predicate ExpectedValue(site: Site, beacons: seq<Beacon>, r: Resolved, k: Key, s: string) {
    match k
    case NetworkName => Says(s, site.networkId)
    case DataDir => s == r.dataDir
    case DbDir => s == r.dbDir
    case LogDir => s == r.logsDir
    case HttpPort => Says(s, r.apiPort)
    case StakingPort => Says(s, r.p2pPort)
    case BootstrapIps => ListsAddresses(s, beacons)
    case BootstrapIds => s == IdsArg(beacons)
    case StakingTlsKeyFile => s == JoinPath(r.dataDir, "staking.key")
    case StakingCertFile => s == JoinPath(r.dataDir, "staking.crt")
    case StakingSignerKeyFile => s == JoinPath(r.dataDir, "signer.key")
    case Genesis => s == JoinPath(r.dataDir, "genesis.json")
    case ConfigFile => s == JoinPath(r.dataDir, "config.json")
    case ChainConfigDir => s == JoinPath(r.dataDir, "chainConfigs")
    case SubnetConfigDir => s == JoinPath(r.dataDir, "subnetConfigs")
    case _ => false
  }

  /** The addresses of the beacons, in their order, separated by commas. */
  predicate ListsAddresses(s: string, beacons: seq<Beacon>) {
    if beacons == [] then s == ""
    else
      var parts := Split(s, ',');
      |parts| == |beacons| && forall i :: 0 <= i < |beacons| ==> IsAddress(parts[i], beacons[i].port)
  }

  predicate IsAddress(s: string, port: Port) {
    |s| >= 6 && s[..6] == "[::1]:" && Says(s[6..], port)
  }

  lemma NumeralHas(s: string, c: char)
    requires Numeral(s) && !('0' <= c <= '9')
    ensures c !in s
  {
  }

  lemma AddressesAreListed(beacons: seq<Beacon>)
    ensures ListsAddresses(IpsArg(beacons), beacons)
  {
    var parts := seq(|beacons|, i requires 0 <= i < |beacons| => "[::1]:" + Decimal(beacons[i].port));
    forall i | 0 <= i < |beacons| ensures IsAddress(parts[i], beacons[i].port) && ',' !in parts[i] {
      DecimalSays(beacons[i].port);
      NumeralHas(Decimal(beacons[i].port), ',');
      assert parts[i][..6] == "[::1]:" && parts[i][6..] == Decimal(beacons[i].port);
      assert ',' !in "[::1]:";
    }
    if beacons != [] { SplitJoin(parts, ','); }
  }

  /** The IDs of the beacons, in their order, separated by commas. */
  lemma IdsAreListed(beacons: seq<Beacon>)
    requires forall i :: 0 <= i < |beacons| ==> ',' !in beacons[i].id
    ensures if beacons == [] then IdsArg(beacons) == ""
            else |Split(IdsArg(beacons), ',')| == |beacons|
                 && forall i :: 0 <= i < |beacons| ==> Split(IdsArg(beacons), ',')[i] == beacons[i].id
  {
    var parts := seq(|beacons|, i requires 0 <= i < |beacons| => beacons[i].id);
    if beacons != [] { SplitJoin(parts, ','); }
  }

  lemma KeysAreExpected(networkId: nat, hasConfigFile: bool, k: Key)
    ensures k in DEFAULT_KEYS || k in FileKeys(networkId, hasConfigFile) <==> Expected(networkId, hasConfigFile, k)
    ensures k in DEFAULT_KEYS ==> k !in FileKeys(networkId, hasConfigFile)
  {
  }

  lemma FileIsExpected(site: Site, beacons: seq<Beacon>, r: Resolved, hasConfigFile: bool, k: Key)
    requires k in FileKeys(site.networkId, hasConfigFile)
    ensures ExpectedValue(site, beacons, r, k, JoinPath(r.dataDir, FileName(k)))
  {
    hide JoinPath, IpsArg, IdsArg, ListsAddresses;
  }

  lemma DefaultIsExpected(site: Site, beacons: seq<Beacon>, r: Resolved, k: Key)
    requires k in DEFAULT_KEYS
    ensures ExpectedValue(site, beacons, r, k, DefaultValue(site, beacons, r, k))
  {
    hide JoinPath, IpsArg, IdsArg, ListsAddresses;
    DecimalSays(site.networkId);
    DecimalSays(r.apiPort);
    DecimalSays(r.p2pPort);
    AddressesAreListed(beacons);
  }

  lemma LayersOfArgs(site: Site, beacons: seq<Beacon>, flags: FlagMap, hasConfigFile: bool, r: Resolved, args: ArgMap)
    ensures Layers(site, beacons, flags, hasConfigFile, r.(args := args)) == Layers(site, beacons, flags, hasConfigFile, r)
  {
    hide JoinPath, FileName, IpsArg, IdsArg;
    assert Defaults(site, beacons, r.(args := args)) == Defaults(site, beacons, r);
  }

  /** Every flag but the renamed ones, and nothing else: the node's own, printed, except for
      its ports; else what is expected. */
  lemma CommandLineSays(site: Site, beacons: seq<Beacon>, flags: FlagMap, file: Option<FlagMap>, nodeDir: string, e: ArgsEnv, k: Key)
    requires BuildArgs(site, beacons, flags, file, nodeDir, e).Ok?
    requires k !in {BuildDir, PluginDir, WhitelistedSubnets, TrackSubnets}
    ensures var r := BuildArgs(site, beacons, flags, file, nodeDir, e).value;
            var own := k in flags && k != HttpPort && k != StakingPort;
            && SettingsChosen(site, flags, if file.Some? then file.value else map[], nodeDir, e, r)
            && (k in r.args <==> own || Expected(site.networkId, file.Some?, k))
            && (k in r.args ==>
                  if own then Printed(site.floats, flags[k], r.args[k]) else ExpectedValue(site, beacons, r, k, r.args[k]))
  {
    hide Settings, Layers, ForVersion, JoinPath, Show, Printed, Expected, ExpectedValue, DefaultValue, FileName, FileKeys, PortChosen;
    var file' := if file.Some? then file.value else map[];
    SettingsAreChosen(site, flags, file', nodeDir, e);
    var r0 := Settings(site, flags, file', nodeDir, e).value;
    var r := BuildArgs(site, beacons, flags, file, nodeDir, e).value;
    LayersOfArgs(site, beacons, flags, file.Some?, r0, r.args);
    LayerOf(site, beacons, flags, file.Some?, r, k);
    KeysAreExpected(site.networkId, file.Some?, k);
    if k in FileKeys(site.networkId, file.Some?) { FileIsExpected(site, beacons, r, file.Some?, k); }
    if k in DEFAULT_KEYS { DefaultIsExpected(site, beacons, r, k); }
    TranslationKeepsOthers(e.older("v0.4.1"), Layers(site, beacons, flags, file.Some?, r), k);
    if k in flags { ShowPrints(site.floats, flags[k]); }
  }

  /** A flag is passed on as it is, if it is there at all. */
  predicate PassedAsIs(floats: real -> string, flags: FlagMap, args: ArgMap, k: Key) {
    (k in args <==> k in flags) && (k in flags ==> k in args && Printed(floats, flags[k], args[k]))
  }

  /** The flag says something. */
  predicate NotEmpty(floats: real -> string, flags: FlagMap, k: Key) {
    k in flags && !Printed(floats, flags[k], "")
  }

  /** The plugin directory and the tracked subnets: a current version gets them as they are,
      an older one under the old names, the directory's parent in place of the directory, and
      not at all if they are empty. */
  ghost predicate RenamedSaid(floats: real -> string, dated: bool, flags: FlagMap, args: ArgMap) {
    if !dated then
      && PassedAsIs(floats, flags, args, PluginDir) && PassedAsIs(floats, flags, args, BuildDir)
      && PassedAsIs(floats, flags, args, TrackSubnets) && PassedAsIs(floats, flags, args, WhitelistedSubnets)
    else
      && PluginDir !in args && TrackSubnets !in args
      && (if NotEmpty(floats, flags, TrackSubnets)
          then WhitelistedSubnets in args && Printed(floats, flags[TrackSubnets], args[WhitelistedSubnets])
          else PassedAsIs(floats, flags, args, WhitelistedSubnets))
      && (if NotEmpty(floats, flags, PluginDir)
          then BuildDir in args && exists d :: Printed(floats, flags[PluginDir], d) && args[BuildDir] == Dir(TrimSlash(d))
          else PassedAsIs(floats, flags, args, BuildDir))
  }

  lemma EmptyIffPrinted(floats: real -> string, v: Value)
    ensures Show(floats, v) == "" <==> Printed(floats, v, "")
  {
    ShowPrints(floats, v);
  }

  lemma RenamedLayers(site: Site, beacons: seq<Beacon>, flags: FlagMap, hasConfigFile: bool, r: Resolved, k: Key)
    requires k in {BuildDir, PluginDir, WhitelistedSubnets, TrackSubnets}
    ensures var all := Layers(site, beacons, flags, hasConfigFile, r);
            (k in all <==> k in flags) && (k in flags ==> k in all && all[k] == Show(site.floats, flags[k]))
  {
    hide JoinPath, Show, DefaultValue, FileName, Layers;
    LayerOf(site, beacons, flags, hasConfigFile, r, k);
  }

  lemma RenamedFlagsSay(site: Site, beacons: seq<Beacon>, flags: FlagMap, file: Option<FlagMap>, nodeDir: string, e: ArgsEnv)
    requires BuildArgs(site, beacons, flags, file, nodeDir, e).Ok?
    ensures RenamedSaid(site.floats, e.older("v0.4.1"), flags, BuildArgs(site, beacons, flags, file, nodeDir, e).value.args)
  {
    hide Settings, Layers, Dir, TrimSlash, Show, Printed;
    var r := Settings(site, flags, if file.Some? then file.value else map[], nodeDir, e).value;
    RenamedLayers(site, beacons, flags, file.Some?, r, PluginDir);
    RenamedLayers(site, beacons, flags, file.Some?, r, TrackSubnets);
    RenamedLayers(site, beacons, flags, file.Some?, r, BuildDir);
    RenamedLayers(site, beacons, flags, file.Some?, r, WhitelistedSubnets);
    forall k | k in flags ensures Printed(site.floats, flags[k], Show(site.floats, flags[k]))
                          ensures Show(site.floats, flags[k]) == "" <==> Printed(site.floats, flags[k], "")
    {
      ShowPrints(site.floats, flags[k]);
      EmptyIffPrinted(site.floats, flags[k]);
    }
    RenamedIn(site.floats, e.older("v0.4.1"), flags, Layers(site, beacons, flags, file.Some?, r));
  }

  lemma RenamedIn(floats: real -> string, dated: bool, flags: FlagMap, all: ArgMap)
    requires forall k :: k in {BuildDir, PluginDir, WhitelistedSubnets, TrackSubnets} ==>
               (k in all <==> k in flags) && (k in flags ==> k in all && all[k] == Show(floats, flags[k]))
    requires forall k :: k in flags ==> Printed(floats, flags[k], Show(floats, flags[k]))
                                        && (Show(floats, flags[k]) == "" <==> Printed(floats, flags[k], ""))
    ensures RenamedSaid(floats, dated, flags, ForVersion(dated, all))
  {
    hide Dir, TrimSlash, Show, Printed;
  }

  // ---------- undoing the renaming ----------

  /** What flags with deprecated names become: the values are under the new names, a directory
      as the plugins directory in it; it fails if such a value is not a string. */
  ghost predicate FixedAs(flags: FlagMap, x: Result<FlagMap, Error>) {
    && (x.Ok? <==> (WhitelistedSubnets in flags ==> flags[WhitelistedSubnets].Str?) && (BuildDir in flags ==> flags[BuildDir].Str?))
    && (x.Err? ==> x.error == WrongFlagType)
    && (x.Ok? ==>
          && BuildDir !in x.value && WhitelistedSubnets !in x.value
          && (forall k :: k !in {BuildDir, WhitelistedSubnets, PluginDir, TrackSubnets} ==> SameAt(flags, x.value, k))
          && (if WhitelistedSubnets in flags && flags[WhitelistedSubnets] != Str("")
              then TrackSubnets in x.value && x.value[TrackSubnets] == flags[WhitelistedSubnets]
              else SameAt(flags, x.value, TrackSubnets))
          && (if BuildDir in flags && flags[BuildDir] != Str("")
              then PluginDir in x.value && x.value[PluginDir] == Str(JoinPath(flags[BuildDir].s, "plugins"))
              else SameAt(flags, x.value, PluginDir)))
  }

  /** Two maps say the same about a flag. */
  predicate SameAt(m: FlagMap, n: FlagMap, k: Key) {
    (k in n <==> k in m) && (k in m ==> k in n && n[k] == m[k])
  }

  lemma FixedFlagsAre(flags: FlagMap)
    ensures FixedAs(flags, FixDeprecated(flags))
  {
    hide JoinPath;
  }
}
