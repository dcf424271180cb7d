/** Installing subnets and blockchains (local/blockchain.go): an ordered protocol
    between the network and the platform chain. */
module Installation {
  import opened Common
  import opened Strings
  import opened Flags
  import opened Network
  import opened Runs
  import opened BeaconSet
  import opened LocalNetworks
  import opened NodeResults
  import opened TrackedSubnets
  import opened Chains
  import opened Validators

  // ---------- new participants ----------

  /** Every participant has a name. */
  ghost predicate Named(specs: seq<SubnetSpec>) {
    forall i :: 0 <= i < |specs| ==> "" !in specs[i].participants
  }

  /** The configuration of a participant that is not in the network yet. */
  function NewNode(name: string): NodeConfig {
    NodeConfig(name, false, "", "", None, None, map[])
  }

  /** A participant that is new to the network: no beacon, and with nothing but the network's
      settings. */
  ghost predicate Newcomer(s: State, c: NodeConfig) {
    !c.isBeacon && c.configFile.None? && c.binaryPath == s.binaryPath
  }

  /** Nodes were added, with Flags maps of their own; the others keep their maps as they are. */
  ghost predicate Extended(s: State, r: State)
    requires WellFormed(s) && WellFormed(r)
  {
    && |r.store| >= |s.store| && r.store[..|s.store|] == s.store && r.netFlags == s.netFlags && r.binaryPath == s.binaryPath
    && |r.procs| >= |s.procs|
    && (forall n :: n in s.nodes ==>
          n in r.nodes && r.nodes[n].cfg == s.nodes[n].cfg.(files := r.nodes[n].cfg.files) && r.nodes[n].paused == s.nodes[n].paused)
    && (forall n :: n in r.nodes && n !in s.nodes ==>
          r.nodes[n].cfg.flags.value >= |s.store| && FlagsOf(r, n) == s.netFlags && Newcomer(s, r.nodes[n].cfg))
    && (Unshared(s.nodes) ==> Unshared(r.nodes))
  }

  lemma ExtendedSame(s: State, r: State)
    requires WellFormed(s) && r.store == s.store && r.netFlags == s.netFlags && r.binaryPath == s.binaryPath && |r.procs| >= |s.procs|
    requires r.nodes.Keys == s.nodes.Keys && WellFormed(r)
    requires forall n :: n in s.nodes ==>
               r.nodes[n].cfg == s.nodes[n].cfg.(files := r.nodes[n].cfg.files) && r.nodes[n].paused == s.nodes[n].paused
    ensures Extended(s, r)
  {
    assert forall n :: n in s.nodes <==> n in s.nodes.Keys;
    assert forall n :: n in r.nodes <==> n in r.nodes.Keys;
  }

  lemma ExtendedTwice(s: State, m: State, r: State)
    requires WellFormed(s) && WellFormed(m) && WellFormed(r) && Extended(s, m) && Extended(m, r)
    ensures Extended(s, r)
  {
    hide Unshared, FlagsOf, WellFormed;
    assert r.store[..|s.store|] == r.store[..|m.store|][..|s.store|];
    forall n | n in r.nodes && n !in s.nodes
      ensures r.nodes[n].cfg.flags.Some? && r.nodes[n].cfg.flags.value >= |s.store|
      ensures FlagsOf(r, n) == s.netFlags && Newcomer(s, r.nodes[n].cfg)
    {
      EntryRefers(r, n);
      if n in m.nodes { EntryRefers(m, n); SameMap(m, r, n); }
    }
  }

  lemma SameMap(m: State, r: State, n: string)
    requires WellFormed(m) && WellFormed(r) && n in m.nodes && n in r.nodes && r.nodes[n].cfg.flags == m.nodes[n].cfg.flags
    requires |r.store| >= |m.store| && r.store[..|m.store|] == m.store
    ensures FlagsOf(r, n) == FlagsOf(m, n)
  {
    var a := m.nodes[n].cfg.flags.value;
    assert r.store[a] == r.store[..|m.store|][a];
  }

  /** A new participant gets a Flags map of its own, holding the network's flags. */
  lemma AddNewNode(s: State, name: string, e: AddEnv)
    requires Good(s) && name !in s.nodes
    ensures var o := AddNode(s, NewNode(name), e);
            && Good(o.s) && Extended(s, o.s)
            && (o.err.None? && name != "" ==> name in o.s.nodes)
            && o.err != Some(ParticipantNotInNetwork)
  {
    hide Prepare, BuildArgs, Owned, Identified, WellFormed, Extended, Clashes;
    var c := NewNode(name);
    AddNodeKeepsInv(s, c, e);
    AddIdentified(s, c, e);
    AddNodeErrors(s, c, e);
    PrepareFacts(s, c, e);
    ExtendedByOne(s, AddNode(s, c, e).s, if Prepare(s, c, e).ready.Ok? then Prepare(s, c, e).ready.value.cfg.name else "");
  }

  lemma ExtendedByOne(s: State, r: State, name: string)
    requires WellFormed(s) && WellFormed(r) && r.store == s.store + [s.netFlags] && r.netFlags == s.netFlags
    requires r.binaryPath == s.binaryPath && |r.procs| >= |s.procs|
    requires r.nodes == s.nodes
             || (name in r.nodes && name !in s.nodes && r.nodes == s.nodes[name := r.nodes[name]]
                 && r.nodes[name].cfg.flags == Some(|s.store|) && Newcomer(s, r.nodes[name].cfg))
    ensures Extended(s, r)
  {
  }

  /** All participants that are not in the network are added; envs(i, j) answers for the
      j-th participant of the i-th subnet. */
  method AddMissing(net: LocalNetwork, specs: seq<SubnetSpec>, envs: (nat, nat) -> AddEnv) returns (err: Option<Error>)
    requires Good(net.Contents())
    modifies net
    ensures Good(net.Contents()) && Extended(old(net.Contents()), net.Contents())
    ensures err.None? && Named(specs) ==> Present(net.nodes, specs)
    ensures err != Some(ParticipantNotInNetwork)
  {
    hide Good, Extended, AddNode;
    ghost var s := net.Contents();
    GoodIsWellFormed(s);
    ExtendedSame(s, s);
    for i := 0 to |specs|
      invariant Good(net.Contents()) && WellFormed(net.Contents()) && Extended(s, net.Contents())
      invariant Named(specs) ==> Present(net.nodes, specs[..i])
    {
      var names := specs[i].participants;
      for j := 0 to |names|
        invariant Good(net.Contents()) && WellFormed(net.Contents()) && Extended(s, net.Contents())
        invariant Named(specs) ==> Present(net.nodes, specs[..i]) && forall k :: 0 <= k < j ==> names[k] in net.nodes
      {
        if names[j] !in net.nodes {
          ghost var m := net.Contents();
          AddNewNode(m, names[j], envs(i, j));
          err := net.AddNodeLocked(NewNode(names[j]), envs(i, j));
          GoodIsWellFormed(net.Contents());
          ExtendedTwice(s, m, net.Contents());
          if err.Some? { return; }
          ExtendedKeepsNames(m, net.Contents());
        }
      }
    }
    assert specs[..|specs|] == specs;
    return None;
  }

  lemma GoodIsWellFormed(s: State)
    requires Good(s)
    ensures WellFormed(s)
  {
  }

  lemma ExtendedKeepsNames(s: State, r: State)
    requires WellFormed(s) && WellFormed(r) && Extended(s, r)
    ensures forall n :: n in s.nodes ==> n in r.nodes
  {
  }

  // ---------- config files ----------

  /** Nothing but config files was written. */
  ghost predicate OnlyFiles(s: State, r: State) {
    && r == s.(nodes := r.nodes) && r.nodes.Keys == s.nodes.Keys
    && forall n :: n in s.nodes ==> r.nodes[n] == s.nodes[n].(cfg := s.nodes[n].cfg.(files := r.nodes[n].cfg.files))
  }

  lemma OnlyFilesExtends(s: State, r: State)
    requires WellFormed(s) && OnlyFiles(s, r)
    ensures WellFormed(r) && Extended(s, r)
  {
    hide Extended;
    assert forall n :: n in r.nodes ==> n in r.nodes.Keys;
    ExtendedSame(s, r);
  }

  /** One file is written into the config of a node. */
  method PutFile(net: LocalNetwork, name: string, file: (FileKind, string), text: string)
    requires Good(net.Contents()) && name in net.nodes
    modifies net`nodes
    ensures Good(net.Contents()) && OnlyFiles(old(net.Contents()), net.Contents())
    ensures net.nodes.Keys == old(net.nodes.Keys)
    ensures forall n :: n in net.nodes ==>
              net.nodes[n].cfg.files == if n == name then old(net.nodes)[n].cfg.files[file := text] else old(net.nodes)[n].cfg.files
  {
    hide Owned, Identified;
    SetFileKeepsInv(net.Contents(), name, file, text);
    SetFileIdentified(net.Contents(), name, file, text);
    var node := net.nodes[name];
    net.nodes := net.nodes[name := node.(cfg := node.cfg.(files := node.cfg.files[file := text]))];
    assert net.Contents() == Do(old(net.Contents()), SetFile(name, file, text));
  }

  /** One file is written into the configs of some nodes; text(n) is what node n gets. */
  method PutFiles(net: LocalNetwork, names: seq<string>, file: (FileKind, string), text: string -> string)
    returns (err: Option<Error>)
    requires Good(net.Contents())
    modifies net`nodes
    ensures Good(net.Contents()) && OnlyFiles(old(net.Contents()), net.Contents())
    ensures net.nodes.Keys == old(net.nodes.Keys)
    ensures err == if forall n :: n in names ==> n in old(net.nodes) then None else Some(ParticipantNotInNetwork)
    ensures err.None? ==> FilesPut(old(net.nodes), net.nodes, names, file, text)
  {
    hide Good, OnlyFiles, FilesPut;
    ghost var s := net.Contents();
    NoFiles(s);
    NoFilePut(s.nodes, file, text);
    for j := 0 to |names|
      invariant Good(net.Contents()) && OnlyFiles(s, net.Contents()) && net.nodes.Keys == s.nodes.Keys
      invariant forall k :: 0 <= k < j ==> names[k] in s.nodes.Keys
      invariant FilesPut(s.nodes, net.nodes, names[..j], file, text)
    {
      if names[j] !in net.nodes {
        assert names[j] !in net.nodes.Keys;
        return Some(ParticipantNotInNetwork);
      }
      ghost var m := net.Contents();
      PutFile(net, names[j], file, text(names[j]));
      OnlyFilesTwice(s, m, net.Contents());
      assert names[..j + 1] == names[..j] + [names[j]];
      OneMoreFile(s.nodes, m.nodes, net.nodes, names[..j], names[j], file, text);
    }
    assert names[..|names|] == names;
    return None;
  }

  /** The nodes named have the file, and all other files are as they were. */
  ghost predicate FilesPut(before: map<string, Node>, now: map<string, Node>, names: seq<string>, file: (FileKind, string),
                           text: string -> string)
    requires now.Keys == before.Keys
  {
    forall n :: n in now ==>
      && n in before.Keys
      && now[n].cfg.files == if n in names then before[n].cfg.files[file := text(n)] else before[n].cfg.files
  }

  lemma {:induction false} NoFilePut(nodes: map<string, Node>, file: (FileKind, string), text: string -> string)
    ensures FilesPut(nodes, nodes, [], file, text)
  {
  }

  lemma {:induction false} OneMoreFile(before: map<string, Node>, m: map<string, Node>, now: map<string, Node>, names: seq<string>,
                                       name: string, file: (FileKind, string), text: string -> string)
    requires now.Keys == m.Keys == before.Keys && name in now && FilesPut(before, m, names, file, text)
    requires forall n :: n in now ==>
               && n in m.Keys
               && now[n].cfg.files == if n == name then m[n].cfg.files[file := text(name)] else m[n].cfg.files
    ensures FilesPut(before, now, names + [name], file, text)
  {
    assert forall n :: n in now ==> n in before.Keys && n in m.Keys;
  }

  /** The config files of a node once the first k subnets had theirs set. */
  function SubnetFiles(files: ConfigFiles, ids: seq<string>, specs: seq<SubnetSpec>, name: string, k: nat): ConfigFiles
    requires k <= |ids| <= |specs|
  {
    if k == 0 then files
    else
      var before := SubnetFiles(files, ids, specs, name, k - 1);
      if specs[k - 1].config.Some? && name in specs[k - 1].participants then
        before[(SubnetFile, ids[k - 1]) := specs[k - 1].config.value]
      else before
  }

  /** With distinct subnets, a node's file for a subnet it takes part in is the config of
      that subnet, and every other file is what it was. */
  lemma {:induction false} SubnetFilesAt(files: ConfigFiles, ids: seq<string>, specs: seq<SubnetSpec>, name: string, k: nat, i: nat)
    requires i < k <= |ids| <= |specs| && AllDistinct(ids)
    ensures var f := (SubnetFile, ids[i]);
            var after := SubnetFiles(files, ids, specs, name, k);
            if specs[i].config.Some? && name in specs[i].participants then
              f in after && after[f] == specs[i].config.value
            else (f in after <==> f in files) && (f in files ==> after[f] == files[f])
  {
    if i < k - 1 {
      SubnetFilesAt(files, ids, specs, name, k - 1, i);
    } else {
      OtherFilesSame(files, ids, specs, name, i, (SubnetFile, ids[i]));
    }
  }

  lemma {:induction false} OtherFilesSame(files: ConfigFiles, ids: seq<string>, specs: seq<SubnetSpec>, name: string, k: nat,
                                          f: (FileKind, string))
    requires k <= |ids| <= |specs| && (f.0 != SubnetFile || f.1 !in ids[..k])
    ensures var after := SubnetFiles(files, ids, specs, name, k);
            (f in after <==> f in files) && (f in files ==> after[f] == files[f])
  {
    if k > 0 {
      assert ids[..k] == ids[..k - 1] + [ids[k - 1]];
      OtherFilesSame(files, ids, specs, name, k - 1, f);
    }
  }

  /** setSubnetConfigFiles. */
  method SetSubnetConfigFiles(net: LocalNetwork, ids: seq<string>, specs: seq<SubnetSpec>) returns (err: Option<Error>)
    requires Good(net.Contents()) && |ids| <= |specs|
    modifies net`nodes
    ensures Good(net.Contents()) && OnlyFiles(old(net.Contents()), net.Contents())
    ensures net.nodes.Keys == old(net.nodes.Keys)
    ensures err in {None, Some(ParticipantNotInNetwork)}
    ensures Present(old(net.nodes), specs) ==> err.None?
    ensures err.None? ==> forall n :: n in net.nodes ==>
              net.nodes[n].cfg.files == SubnetFiles(old(net.nodes)[n].cfg.files, ids, specs, n, |ids|)
  {
    hide Good, OnlyFiles, Present;
    ghost var s := net.Contents();
    NoFiles(s);
    for i := 0 to |ids|
      invariant Good(net.Contents()) && OnlyFiles(s, net.Contents()) && net.nodes.Keys == s.nodes.Keys
      invariant forall n :: n in net.nodes ==>
                  net.nodes[n].cfg.files == SubnetFiles(s.nodes[n].cfg.files, ids, specs, n, i)
    {
      if specs[i].config.Some? {
        var text := specs[i].config.value;
        ghost var m := net.Contents();
        err := PutFiles(net, specs[i].participants, (SubnetFile, ids[i]), n => text);
        OnlyFilesTwice(s, m, net.Contents());
        if err.Some? {
          assert exists p :: p in specs[i].participants && p !in s.nodes.Keys;
          PresentAt(s.nodes, specs, i);
          return;
        }
      }
    }
    return None;
  }

  lemma NoFiles(s: State)
    ensures OnlyFiles(s, s)
  {
  }

  lemma OnlyFilesTwice(s: State, m: State, r: State)
    requires OnlyFiles(s, m) && OnlyFiles(m, r)
    ensures OnlyFiles(s, r)
  {
    assert forall n :: n in s.nodes <==> n in m.nodes.Keys;
  }

  /** Whether a blockchain comes with a config of its own. */
  predicate HasConfig(c: ChainSpec) {
    c.chainConfig.Some? || c.perNodeConfig != map[]
  }

  /** The config of a blockchain on one node: its own, or else the common one. */
  function ConfigText(c: ChainSpec, name: string): string {
    if name in c.perNodeConfig then c.perNodeConfig[name]
    else if c.chainConfig.Some? then c.chainConfig.value
    else ""
  }

  /** The config files of a node once the first k blockchains had theirs set; the i-th
      has the alias aliases[i] and the participants parts[i]. */
  function ChainFiles(files: ConfigFiles, chains: seq<ChainSpec>, aliases: seq<string>, parts: seq<seq<string>>,
                      name: string, k: nat): ConfigFiles
    requires k <= |chains| && k <= |parts| && |chains| == |aliases|
  {
    if k == 0 then files
    else
      var c, alias := chains[k - 1], aliases[k - 1];
      var before := ChainFiles(files, chains, aliases, parts, name, k - 1);
      if name !in parts[k - 1] then before
      else
        var f := if HasConfig(c) then before[(ChainFile, alias) := ConfigText(c, name)] else before;
        if c.upgrade.Some? then f[(UpgradeFile, alias) := c.upgrade.value] else f
  }

  /** The nodes that have to be restarted for the files of the first k blockchains. */
  function ToRestart(chains: seq<ChainSpec>, parts: seq<seq<string>>, k: nat): set<string>
    requires k <= |chains| && k <= |parts|
  {
    if k == 0 then {}
    else ToRestart(chains, parts, k - 1)
         + (if HasConfig(chains[k - 1]) || chains[k - 1].upgrade.Some? then Elements(parts[k - 1]) else {})
  }

  lemma {:induction false} ChainFilesPrefix(files: ConfigFiles, chains: seq<ChainSpec>, aliases: seq<string>,
                                            parts: seq<seq<string>>, more: seq<string>, name: string, k: nat)
    requires k <= |chains| && k <= |parts| && |chains| == |aliases|
    ensures ChainFiles(files, chains, aliases, parts + [more], name, k) == ChainFiles(files, chains, aliases, parts, name, k)
    ensures ToRestart(chains, parts + [more], k) == ToRestart(chains, parts, k)
  {
    if k > 0 { ChainFilesPrefix(files, chains, aliases, parts, more, name, k - 1); }
  }

  /** The files of one blockchain. */
  method SetChainFiles(net: LocalNetwork, c: ChainSpec, alias: string, names: seq<string>)
    returns (err: Option<Error>, touched: set<string>)
    requires Good(net.Contents())
    modifies net`nodes
    ensures Good(net.Contents()) && OnlyFiles(old(net.Contents()), net.Contents())
    ensures net.nodes.Keys == old(net.nodes.Keys)
    ensures err in {None, Some(ParticipantNotInNetwork)}
    ensures (forall n :: n in names ==> n in old(net.nodes)) ==> err.None?
    ensures err.None? ==> touched == if HasConfig(c) || c.upgrade.Some? then Elements(names) else {}
    ensures err.None? ==> forall n :: n in net.nodes ==>
              net.nodes[n].cfg.files == ChainFiles(old(net.nodes)[n].cfg.files, [c], [alias], [names], n, 1)
  {
    hide Good, OnlyFiles;
    ghost var s := net.Contents();
    NoFiles(s);
    touched := {};
    if c.chainConfig.Some? || |c.perNodeConfig| != 0 {
      err := PutFiles(net, names, (ChainFile, alias), n => ConfigText(c, n));
      if err.Some? { return; }
      touched := Elements(names);
    }
    if c.upgrade.Some? {
      ghost var m := net.Contents();
      err := PutFiles(net, names, (UpgradeFile, alias), n => c.upgrade.value);
      OnlyFilesTwice(s, m, net.Contents());
      if err.Some? { return; }
      touched := Elements(names);
    }
    err := None;
  }

  /** The nodes behind the validators of a subnet. */
  ghost predicate Behind(nodes: map<string, Node>, v: View, subnet: string, names: seq<string>) {
    forall n :: n in names <==> n in nodes && InSubnet(v, subnet, nodes[n].id)
  }

  /** Whom setBlockchainConfigFiles takes for the participants of a blockchain: those of the
      spec if the subnet is new, and otherwise the nodes behind its validators in some view. */
  ghost predicate PartsOf(nodes: map<string, Node>, view: nat -> View, ids: seq<string>, specs: seq<SubnetSpec>, subnet: string,
                          names: seq<string>)
    requires |ids| <= |specs|
  {
    && (forall n :: n in names ==> n in nodes || exists j :: 0 <= j < |ids| && n in specs[j].participants)
    && (AllDistinct(ids) ==> forall j :: 0 <= j < |ids| && ids[j] == subnet && specs[j].participants != [] ==>
          names == specs[j].participants)
    && ((forall j :: 0 <= j < |ids| && ids[j] == subnet ==> specs[j].participants == []) ==>
          exists t: nat :: Behind(nodes, view(t), subnet, names))
  }

  method FindParticipants(net: LocalNetwork, chain: PlatformChain, subnet: string, ids: seq<string>, specs: seq<SubnetSpec>)
    returns (r: Result<seq<string>, Error>)
    requires |ids| <= |specs|
    modifies chain`time
    ensures chain.time >= old(chain.time)
    ensures r.Err? ==> r.error in {ChainUnavailable, ValidatorNotInNetwork}
    ensures r.Ok? ==> PartsOf(net.nodes, chain.view, ids, specs, subnet, r.value)
  {
    var names := NewParticipants(subnet, ids, specs);
    if |names| == 0 {
      var v := chain.Validators();
      if v.None? { return Err(ChainUnavailable); }
      var validators := SortedList(ValidatorsOf(v.value, subnet));
      assert forall x :: x in validators <==> x in Elements(validators);
      r := ValidatorNames(map n | n in net.nodes :: net.nodes[n].id, validators);
      assert r.Ok? ==> Behind(net.nodes, chain.view(old(chain.time)), subnet, r.value);
    } else {
      r := Ok(names);
    }
  }

  /** setBlockchainConfigFiles. */
  method SetBlockchainConfigFiles(net: LocalNetwork, chain: PlatformChain, chains: seq<ChainSpec>, aliases: seq<string>,
                                  ids: seq<string>, specs: seq<SubnetSpec>)
    returns (err: Option<Error>, restart: set<string>, ghost parts: seq<seq<string>>)
    requires Good(net.Contents()) && |aliases| == |chains| && |ids| <= |specs|
    requires forall k :: 0 <= k < |chains| ==> chains[k].subnetId.Some?
    modifies net`nodes, chain`time
    ensures chain.time >= old(chain.time)
    ensures Good(net.Contents()) && OnlyFiles(old(net.Contents()), net.Contents())
    ensures net.nodes.Keys == old(net.nodes.Keys)
    ensures Present(old(net.nodes), specs) ==> err != Some(ParticipantNotInNetwork)
    ensures err.None? ==> |parts| == |chains| && restart == ToRestart(chains, parts, |chains|)
    ensures err.None? ==> forall k :: 0 <= k < |chains| ==>
              PartsOf(old(net.nodes), chain.view, ids, specs, chains[k].subnetId.value, parts[k])
    ensures err.None? ==> forall n :: n in net.nodes ==>
              net.nodes[n].cfg.files == ChainFiles(old(net.nodes)[n].cfg.files, chains, aliases, parts, n, |chains|)
  {
    hide Good, OnlyFiles, PartsOf, Present;
    ghost var s := net.Contents();
    NoFiles(s);
    restart, parts := {}, [];
    for i := 0 to |chains|
      invariant Good(net.Contents()) && OnlyFiles(s, net.Contents()) && net.nodes.Keys == s.nodes.Keys
      invariant chain.time >= old(chain.time) && |parts| == i && restart == ToRestart(chains, parts, i)
      invariant forall k :: 0 <= k < i ==> PartsOf(s.nodes, chain.view, ids, specs, chains[k].subnetId.value, parts[k])
      invariant forall n :: n in net.nodes ==>
                  net.nodes[n].cfg.files == ChainFiles(s.nodes[n].cfg.files, chains, aliases, parts, n, i)
    {
      var found := FindParticipants(net, chain, chains[i].subnetId.value, ids, specs);
      if found.Err? { err := Some(found.error); return; }
      ghost var m := net.Contents();
      OnlyFilesSameIds(s, m);
      PartsSameIds(m.nodes, s.nodes, chain.view, ids, specs, chains[i].subnetId.value, found.value);
      var touched;
      err, touched := SetChainFiles(net, chains[i], aliases[i], found.value);
      OnlyFilesTwice(s, m, net.Contents());
      if err.Some? { return; }
      restart := restart + touched;
      forall n | n in net.nodes
        ensures net.nodes[n].cfg.files == ChainFiles(s.nodes[n].cfg.files, chains, aliases, parts + [found.value], n, i + 1)
      {
        ChainFilesPrefix(s.nodes[n].cfg.files, chains, aliases, parts, found.value, n, i);
        ChainFilesNext(s.nodes[n].cfg.files, m.nodes[n].cfg.files, chains, aliases, parts + [found.value], n, i);
      }
      ChainFilesPrefix(map[], chains, aliases, parts, found.value, "", i);
      parts := parts + [found.value];
    }
    err := None;
  }

  lemma ChainFilesNext(files: ConfigFiles, before: ConfigFiles, chains: seq<ChainSpec>, aliases: seq<string>,
                       parts: seq<seq<string>>, name: string, k: nat)
    requires k < |chains| == |aliases| && k < |parts| && before == ChainFiles(files, chains, aliases, parts, name, k)
    ensures ChainFiles(files, chains, aliases, parts, name, k + 1)
         == ChainFiles(before, [chains[k]], [aliases[k]], [parts[k]], name, 1)
  {
  }

  /** The same nodes have the same IDs. */
  ghost predicate SameIds(nodes: map<string, Node>, nodes': map<string, Node>) {
    (forall n :: n in nodes <==> n in nodes') && (forall n :: n in nodes ==> nodes'[n].id == nodes[n].id)
  }

  lemma OnlyFilesSameIds(s: State, r: State)
    requires OnlyFiles(s, r)
    ensures SameIds(r.nodes, s.nodes)
  {
    assert forall n :: n in s.nodes <==> n in r.nodes.Keys;
  }

  lemma {:induction false} PartsSameIds(nodes: map<string, Node>, nodes': map<string, Node>, view: nat -> View, ids: seq<string>,
                                        specs: seq<SubnetSpec>, subnet: string, names: seq<string>)
    requires |ids| <= |specs| && SameIds(nodes, nodes') && PartsOf(nodes, view, ids, specs, subnet, names)
    ensures PartsOf(nodes', view, ids, specs, subnet, names)
    ensures Present(nodes', specs) ==> forall n :: n in names ==> n in nodes
  {
    hide InSubnet;
    forall t: nat | Behind(nodes, view(t), subnet, names) ensures Behind(nodes', view(t), subnet, names) { }
  }

  // ---------- what the files are ----------

  /** A file that belongs to none of the first k blockchains is as it was. */
  lemma {:induction false} OtherChainFilesSame(files: ConfigFiles, chains: seq<ChainSpec>, aliases: seq<string>,
                                               parts: seq<seq<string>>, name: string, k: nat, f: (FileKind, string))
    requires k <= |chains| == |aliases| && k <= |parts| && (f.0 == SubnetFile || f.1 !in aliases[..k])
    ensures var after := ChainFiles(files, chains, aliases, parts, name, k);
            (f in after <==> f in files) && (f in files ==> after[f] == files[f])
  {
    if k > 0 {
      assert aliases[..k] == aliases[..k - 1] + [aliases[k - 1]];
      OtherChainFilesSame(files, chains, aliases, parts, name, k - 1, f);
    }
  }

  /** With distinct aliases, a participant's files for a blockchain are the blockchain's
      config, its own if there is one, and its upgrade; everyone else's are as they were. */
  lemma {:induction false} ChainFilesAt(files: ConfigFiles, chains: seq<ChainSpec>, aliases: seq<string>, parts: seq<seq<string>>,
                                        name: string, k: nat, i: nat)
    requires i < k <= |chains| == |aliases| && k <= |parts| && AllDistinct(aliases)
    ensures var after, f := ChainFiles(files, chains, aliases, parts, name, k), (ChainFile, aliases[i]);
            if name in parts[i] && (chains[i].chainConfig.Some? || chains[i].perNodeConfig != map[])
            then f in after && ConfigFor(chains[i], name, after[f])
            else (f in after <==> f in files) && (f in files ==> after[f] == files[f])
    ensures var after, f := ChainFiles(files, chains, aliases, parts, name, k), (UpgradeFile, aliases[i]);
            if name in parts[i] && chains[i].upgrade.Some? then f in after && after[f] == chains[i].upgrade.value
            else (f in after <==> f in files) && (f in files ==> after[f] == files[f])
  {
    if i < k - 1 {
      ChainFilesAt(files, chains, aliases, parts, name, k - 1, i);
    } else {
      OtherChainFilesSame(files, chains, aliases, parts, name, i, (ChainFile, aliases[i]));
      OtherChainFilesSame(files, chains, aliases, parts, name, i, (UpgradeFile, aliases[i]));
    }
  }

  /** Exactly the participants of the blockchains that come with files are restarted for them. */
  lemma {:induction false} ToRestartHas(chains: seq<ChainSpec>, parts: seq<seq<string>>, k: nat, name: string)
    requires k <= |chains| && k <= |parts|
    ensures name in ToRestart(chains, parts, k)
            <==> exists i :: 0 <= i < k && name in parts[i]
                             && (chains[i].chainConfig.Some? || chains[i].perNodeConfig != map[] || chains[i].upgrade.Some?)
  {
    if k > 0 { ToRestartHas(chains, parts, k - 1, name); }
  }

  /** The config a blockchain has on a node: the node's own one, or else the common one, or
      else, if only other nodes have one, an empty one. */
  predicate ConfigFor(c: ChainSpec, name: string, text: string) {
    if name in c.perNodeConfig then text == c.perNodeConfig[name]
    else if c.chainConfig.Some? then text == c.chainConfig.value
    else text == ""
  }

  /** A file of a node is there with its text. */
  predicate HasFile(nodes: map<string, Node>, name: string, file: (FileKind, string), text: string) {
    name in nodes && file in nodes[name].cfg.files && nodes[name].cfg.files[file] == text
  }

  /** The config file of a blockchain is there. */
  predicate HasConfigFile(nodes: map<string, Node>, name: string, alias: string, c: ChainSpec) {
    var f := (ChainFile, alias);
    name in nodes && f in nodes[name].cfg.files && ConfigFor(c, name, nodes[name].cfg.files[f])
  }

  /** Every participant has the config of its subnet. */
  ghost predicate SubnetFilesIn(nodes: map<string, Node>, ids: seq<string>, specs: seq<SubnetSpec>)
    requires |ids| <= |specs|
  {
    AllDistinct(ids) ==>
      forall i, p :: 0 <= i < |ids| && p in specs[i].participants && specs[i].config.Some? && p in nodes ==>
        HasFile(nodes, p, (SubnetFile, ids[i]), specs[i].config.value)
  }

  /** Every participant has the config and the upgrade of its blockchain. */
  ghost predicate ChainFilesIn(nodes: map<string, Node>, chains: seq<ChainSpec>, aliases: seq<string>, parts: seq<seq<string>>)
    requires |chains| == |aliases| == |parts|
  {
    AllDistinct(aliases) ==>
      forall k, p :: 0 <= k < |chains| && p in parts[k] && p in nodes ==>
        && (chains[k].chainConfig.Some? || chains[k].perNodeConfig != map[] ==> HasConfigFile(nodes, p, aliases[k], chains[k]))
        && (chains[k].upgrade.Some? ==> HasFile(nodes, p, (UpgradeFile, aliases[k]), chains[k].upgrade.value))
  }

  lemma SubnetFilesAreIn(before: map<string, Node>, nodes: map<string, Node>, ids: seq<string>, specs: seq<SubnetSpec>)
    requires |ids| <= |specs| && nodes.Keys == before.Keys
    requires forall n :: n in nodes ==>
               && n in before.Keys
               && nodes[n].cfg.files == SubnetFiles(before[n].cfg.files, ids, specs, n, |ids|)
    ensures SubnetFilesIn(nodes, ids, specs)
  {
    hide SubnetFiles;
    forall i, p | AllDistinct(ids) && 0 <= i < |ids| && p in specs[i].participants && specs[i].config.Some? && p in nodes
      ensures HasFile(nodes, p, (SubnetFile, ids[i]), specs[i].config.value)
    {
      SubnetFilesAt(before[p].cfg.files, ids, specs, p, |ids|, i);
    }
  }

  lemma ChainFilesAreIn(before: map<string, Node>, nodes: map<string, Node>, chains: seq<ChainSpec>, aliases: seq<string>,
                        parts: seq<seq<string>>)
    requires |chains| == |aliases| == |parts| && nodes.Keys == before.Keys
    requires forall n :: n in nodes ==>
               && n in before.Keys
               && nodes[n].cfg.files == ChainFiles(before[n].cfg.files, chains, aliases, parts, n, |chains|)
    ensures ChainFilesIn(nodes, chains, aliases, parts)
  {
    hide ChainFiles;
    forall k, p | AllDistinct(aliases) && 0 <= k < |chains| && p in parts[k] && p in nodes
      ensures chains[k].chainConfig.Some? || chains[k].perNodeConfig != map[] ==> HasConfigFile(nodes, p, aliases[k], chains[k])
      ensures chains[k].upgrade.Some? ==> HasFile(nodes, p, (UpgradeFile, aliases[k]), chains[k].upgrade.value)
    {
      ChainFilesAt(before[p].cfg.files, chains, aliases, parts, p, |chains|, k);
    }
  }

  /** The files of the blockchains do not touch those of the subnets. */
  lemma SubnetFilesRemain(before: map<string, Node>, nodes: map<string, Node>, chains: seq<ChainSpec>, aliases: seq<string>,
                          parts: seq<seq<string>>, ids: seq<string>, specs: seq<SubnetSpec>)
    requires |chains| == |aliases| == |parts| && nodes.Keys == before.Keys && |ids| <= |specs|
    requires forall n :: n in nodes ==>
               && n in before.Keys
               && nodes[n].cfg.files == ChainFiles(before[n].cfg.files, chains, aliases, parts, n, |chains|)
    requires SubnetFilesIn(before, ids, specs)
    ensures SubnetFilesIn(nodes, ids, specs)
  {
    hide ChainFiles;
    assert forall n :: n in nodes ==> n in before.Keys;
    forall i, p | AllDistinct(ids) && 0 <= i < |ids| && p in specs[i].participants && specs[i].config.Some? && p in nodes
      ensures HasFile(nodes, p, (SubnetFile, ids[i]), specs[i].config.value)
    {
      assert HasFile(before, p, (SubnetFile, ids[i]), specs[i].config.value);
      OtherChainFilesSame(before[p].cfg.files, chains, aliases, parts, p, |chains|, (SubnetFile, ids[i]));
    }
  }

  /** What stays through a restart. */
  lemma FilesRemain(before: map<string, Node>, nodes: map<string, Node>, ids: seq<string>, specs: seq<SubnetSpec>,
                    chains: seq<ChainSpec>, aliases: seq<string>, parts: seq<seq<string>>)
    requires |ids| <= |specs| && |chains| == |aliases| == |parts| && FilesStay(before, nodes) && forall n :: n in nodes ==> n in before
    ensures SubnetFilesIn(before, ids, specs) ==> SubnetFilesIn(nodes, ids, specs)
    ensures ChainFilesIn(before, chains, aliases, parts) ==> ChainFilesIn(nodes, chains, aliases, parts)
  {
    hide AllDistinct;
    forall p, f, text | HasFile(before, p, f, text) ensures HasFile(nodes, p, f, text) { }
    forall p, alias, c | HasConfigFile(before, p, alias, c) ensures HasConfigFile(nodes, p, alias, c) { }
    hide HasFile, HasConfigFile;
  }

  // ---------- the two procedures ----------

  /** What the outside answers during an installation, but for the platform chain's
      views: whether a wallet can be had, whether the nodes get healthy, the new
      subnets, how nodes start and stop, and how long the context lasts. */
  datatype InstallEnv = InstallEnv(
    wallet: bool, adding: (nat, nat) -> AddEnv, healthy: bool, created: nat -> Option<string>,
    starting: nat -> AddEnv, codes: nat -> int, healthyAgain: bool, patience: nat)

  /** createSubnets. */
  method CreateSubnets(n: nat, created: nat -> Option<string>) returns (r: Result<seq<string>, Error>)
    ensures r.Ok? <==> forall i :: 0 <= i < n ==> created(i).Some?
    ensures r.Ok? ==> |r.value| == n && forall i :: 0 <= i < n ==> r.value[i] == created(i).value
    ensures r.Err? ==> r.error == ChainUnavailable
  {
    var ids: seq<string> := [];
    for i := 0 to n
      invariant |ids| == i && forall k :: 0 <= k < i ==> created(k) == Some(ids[k])
    {
      if created(i).None? { return Err(ChainUnavailable); }
      ids := ids + [created(i).value];
    }
    return Ok(ids);
  }

  /** Whatever was issued, no subnet validation ends at the zero time. */
  ghost predicate AllEndInTime(before: seq<ValidatorTx>, after: seq<ValidatorTx>) {
    |after| >= |before| && forall k :: |before| <= k < |after| ==> EndsInTime(after[k])
  }

  /** Whoever was asked to validate one of the subnets takes part in it. */
  ghost predicate OnlyParticipants(nodes: map<string, Node>, ids: seq<string>, specs: seq<SubnetSpec>,
                                   before: seq<ValidatorTx>, after: seq<ValidatorTx>)
    requires |ids| <= |specs|
  {
    && |after| >= |before|
    && (forall k :: |before| <= k < |after| && after[k].AddToSubnet? ==>
          exists i, p :: 0 <= i < |ids| && p in specs[i].participants && p in nodes
                         && after[k].subnet == ids[i] && after[k].id == nodes[p].id)
  }

  lemma ParticipantsOnly(nodes: map<string, Node>, v: View, ids: seq<string>, specs: seq<SubnetSpec>, view: nat -> View, ready: bool,
                         start: seq<ValidatorTx>, before: seq<ValidatorTx>, after: seq<ValidatorTx>)
    requires |ids| <= |specs| && Proper(nodes, ids, specs, view, ready, before, after)
    requires |before| >= |start| && forall k :: |start| <= k < |before| ==> before[k].AddPrimary?
    ensures OnlyParticipants(nodes, ids, specs, start, after)
  {
    assert forall k :: 0 <= k < |before| ==> after[k] == after[..|before|][k];
    assert forall k :: |start| <= k < |after| && after[k].AddToSubnet? ==> k >= |before| && Wanted(nodes, ids, specs, view, after[k]);
  }

  lemma ParticipantsSameIds(nodes: map<string, Node>, nodes': map<string, Node>, ids: seq<string>, specs: seq<SubnetSpec>,
                            before: seq<ValidatorTx>, after: seq<ValidatorTx>)
    requires |ids| <= |specs| && SameIds(nodes', nodes) && OnlyParticipants(nodes, ids, specs, before, after)
    ensures OnlyParticipants(nodes', ids, specs, before, after)
  {
    forall k | |before| <= k < |after| && after[k].AddToSubnet?
      ensures exists i, p :: 0 <= i < |ids| && p in specs[i].participants && p in nodes'
                             && after[k].subnet == ids[i] && after[k].id == nodes'[p].id
    {
      var i, p :| 0 <= i < |ids| && p in specs[i].participants && p in nodes && after[k].subnet == ids[i] && after[k].id == nodes[p].id;
      assert p in nodes' && nodes'[p].id == nodes[p].id;
    }
  }

  lemma MissingAreAdds(nodes: map<string, Node>, v: View, before: seq<ValidatorTx>, after: seq<ValidatorTx>)
    requires |after| >= |before| && forall k :: |before| <= k < |after| ==> Missing(nodes, v, after[k])
    ensures forall k :: |before| <= k < |after| ==> after[k].AddPrimary?
  {
  }

  lemma NothingIssued(issued: seq<ValidatorTx>)
    ensures AllEndInTime(issued, issued)
  {
  }

  lemma PrimaryIssued(nodes: map<string, Node>, v: View, before: seq<ValidatorTx>, after: seq<ValidatorTx>)
    requires |after| >= |before| && forall k :: |before| <= k < |after| ==> Missing(nodes, v, after[k])
    ensures AllEndInTime(before, after)
  {
  }

  lemma ProperIssued(nodes: map<string, Node>, ids: seq<string>, specs: seq<SubnetSpec>, view: nat -> View,
                     start: seq<ValidatorTx>, before: seq<ValidatorTx>, after: seq<ValidatorTx>)
    requires |ids| <= |specs| && AllEndInTime(start, before) && Proper(nodes, ids, specs, view, true, before, after)
    ensures AllEndInTime(start, after)
  {
    hide Wanted;
    forall k | |start| <= k < |after| ensures EndsInTime(after[k]) {
      if k < |before| { assert after[k] == after[..|before|][k]; }
    }
  }

  /** What installSubnets and installCustomChains have in common: from the new nodes to
      the subnet validators. Every path into addSubnetValidators has the participants in
      the network and all nodes among the primary validators. */
  method SetUpSubnets(net: LocalNetwork, chain: PlatformChain, specs: seq<SubnetSpec>, e: InstallEnv)
    returns (r: Result<seq<string>, Error>)
    requires Good(net.Contents()) && chain.Valid()
    modifies net, chain
    ensures chain.time >= old(chain.time)
    ensures Good(net.Contents()) && Extended(old(net.Contents()), net.Contents())
    ensures Named(specs) ==> r != Err(ParticipantNotInNetwork)
    ensures AllEndInTime(old(chain.issued), chain.issued)
    ensures r.Ok? ==> |r.value| == |specs| && forall i :: 0 <= i < |specs| ==> e.created(i) == Some(r.value[i])
    ensures r.Ok? && Named(specs) ==> Present(net.nodes, specs)
    ensures r.Ok? ==> SubnetFilesIn(net.nodes, r.value, specs)
    ensures r.Ok? ==> OnlyParticipants(net.nodes, r.value, specs, old(chain.issued), chain.issued) && e.healthy
  {
    hide OnlyParticipants, Good, Extended, OnlyFiles, Named, Present, Asked, AllPrimary, SubnetFiles, SubnetFilesIn, Missing, Proper, AllEndInTime;
    ghost var s := net.Contents();
    ghost var issued := chain.issued;
    NothingIssued(issued);
    GoodIsWellFormed(s);
    var err := AddMissing(net, specs, e.adding);
    ghost var m := net.Contents();
    GoodIsWellFormed(m);
    if err.Some? { return Err(err.value); }
    if !e.healthy { return Err(Unhealthy); }
    ghost var time := chain.time;
    err := AddPrimaryValidators(net, chain);
    PrimaryIssued(net.nodes, chain.view(time), issued, chain.issued);
    MissingAreAdds(net.nodes, chain.view(time), issued, chain.issued);
    if err.Some? { return Err(err.value); }
    var made := CreateSubnets(|specs|, e.created);
    if made.Err? { return made; }
    err := SetSubnetConfigFiles(net, made.value, specs);
    OnlyFilesExtends(m, net.Contents());
    ExtendedTwice(s, m, net.Contents());
    PresentSame(m.nodes, net.nodes, specs);
    if err.Some? { return Err(err.value); }
    SubnetFilesAreIn(m.nodes, net.nodes, made.value, specs);
    err := WaitPrimaryValidators(net, chain, e.patience);
    if err.Some? { return Err(err.value); }
    ghost var before := chain.issued;
    err := AddSubnetValidators(net, chain, made.value, specs);
    ProperIssued(net.nodes, made.value, specs, chain.view, issued, before, chain.issued);
    ParticipantsOnly(net.nodes, chain.view(time), made.value, specs, chain.view, true, issued, before, chain.issued);
    if err.Some? { return Err(err.value); }
    return made;
  }

  lemma PresentSame(nodes: map<string, Node>, nodes': map<string, Node>, specs: seq<SubnetSpec>)
    requires nodes.Keys == nodes'.Keys
    ensures Present(nodes, specs) <==> Present(nodes', specs)
  {
    assert forall n :: n in nodes <==> n in nodes.Keys;
    assert forall n :: n in nodes' <==> n in nodes'.Keys;
  }

  /** The tracked subnets of a node before an installation; a new node starts with the
      network's flags. */
  ghost function ListBefore(s: State, name: string): string
    requires WellFormed(s)
  {
    if name in s.nodes then ListIn(FlagsOf(s, name)) else ListIn(s.netFlags)
  }

  /** Every node tracks what it tracked before and the new subnets it takes part in. */
  ghost predicate ListsDone(s: State, r: State, ids: seq<string>, specs: seq<SubnetSpec>)
    requires WellFormed(s) && WellFormed(r) && |ids| <= |specs|
  {
    forall n :: n in r.nodes ==>
      TrackSubnets in FlagsOf(r, n)
      && FlagsOf(r, n)[TrackSubnets] == Str(TrackedAfter(ListBefore(s, n), NewFor(ids, specs, n)))
  }

  lemma ListsAreDone(s: State, m: State, r: State, ids: seq<string>, specs: seq<SubnetSpec>)
    requires WellFormed(s) && WellFormed(m) && WellFormed(r) && |ids| <= |specs| && Extended(s, m)
    requires forall n :: n in r.nodes ==> n in m.nodes && NodeDone(m, r, n, ids, specs)
    ensures ListsDone(s, r, ids, specs)
  {
    hide Extended, ListBefore, TrackedAfter, NewFor, Told, WellFormed;
    forall n | n in r.nodes ensures n in m.nodes && ListBefore(s, n) == ListIn(FlagsOf(m, n)) {
      assert NodeDone(m, r, n, ids, specs);
      ListBeforeIs(s, m, n);
    }
  }

  lemma ListBeforeIs(s: State, m: State, n: string)
    requires WellFormed(s) && WellFormed(m) && Extended(s, m) && n in m.nodes
    ensures ListBefore(s, n) == ListIn(FlagsOf(m, n))
  {
    hide Unshared, ListIn;
    if n in s.nodes {
      var a := s.nodes[n].cfg.flags.value;
      assert m.store[a] == m.store[..|s.store|][a];
    }
  }

  /** From the restart to the end of an installation; always says that the nodes are
      restarted even if there is nothing new. */
  method RestartAndWait(net: LocalNetwork, chain: PlatformChain, ids: seq<string>, specs: seq<SubnetSpec>,
                        extra: set<string>, always: bool, plugins: bool, e: InstallEnv, ghost s: State)
    returns (err: Option<Error>)
    requires Good(net.Contents()) && chain.Valid() && |ids| <= |specs| && WellFormed(s) && Extended(s, net.Contents())
    modifies net, chain`time
    ensures Good(net.Contents()) && chain.time >= old(chain.time)
    ensures Present(old(net.nodes), specs) ==> err != Some(ParticipantNotInNetwork)
    ensures err.None? ==> forall i, t: nat :: 0 <= i < |ids| && chain.time <= t ==>
              Validating(net.nodes, chain.view(t), ids[i], specs[i].participants)
    ensures err.None? ==> SameIds(old(net.nodes), net.nodes) && FilesStay(old(net.nodes), net.nodes)
    ensures err.None? && Unshared(s.nodes) && (always || specs != [] || extra != {}) ==> ListsDone(s, net.Contents(), ids, specs)
    ensures !always && specs == [] && extra == {} ==> net.Contents() == old(net.Contents())
    ensures err.None? && (always || specs != [] || extra != {}) ==>
              forall n :: n in old(net.nodes) ==>
                n in net.nodes && LeftRunning(old(net.Contents()), net.Contents(), n, ids, specs, n in extra)
    ensures err.None? ==> plugins && (always || specs != [] || extra != {} ==> e.healthyAgain)
  {
    hide Owned, Identified, Extended, Present, Validating, NodeDone, SameEntries, ListsDone, Unshared, NewFor, FilesStay, LeftRunning,
         SameIds;
    ghost var m := net.Contents();
    if Unshared(s.nodes) { ExtendedUnshared(s, m); }
    FilesStaySame(m.nodes);
    IdsSame(m.nodes);
    if always || |specs| > 0 || |extra| > 0 {
      err := RestartNodes(net, ids, specs, extra, e.starting, e.codes, e.healthyAgain);
      if err.Some? { return; }
      KeysSame(m, net.Contents());
      EntriesSameIds(m, net.Contents());
      PresentSame(m.nodes, net.nodes, specs);
      if Unshared(s.nodes) { ListsAreDone(s, m, net.Contents(), ids, specs); }
    }
    if !plugins { return Some(ChainUnavailable); }
    err := WaitSubnetValidators(net, chain, ids, specs, e.patience);
  }

  lemma IdsSame(nodes: map<string, Node>)
    ensures SameIds(nodes, nodes)
  {
  }

  lemma EntriesSameIds(s: State, r: State)
    requires SameEntries(s, r)
    ensures SameIds(s.nodes, r.nodes)
  {
    KeysSame(s, r);
  }

  lemma ExtendedUnshared(s: State, r: State)
    requires WellFormed(s) && WellFormed(r) && Extended(s, r) && Unshared(s.nodes)
    ensures Unshared(r.nodes)
  {
    hide Unshared;
  }

  /** A node that was there and is not paused runs a process that was started since. */
  ghost predicate RunsNew(s: State, r: State, n: string) {
    n in s.nodes && !s.nodes[n].paused ==> n in r.nodes && r.nodes[n].pid >= |s.procs|
  }

  lemma NotLeftRunning(s: State, m: State, r: State, n: string, ids: seq<string>, specs: seq<SubnetSpec>, listed: bool)
    requires WellFormed(s) && WellFormed(m) && Extended(s, m) && |ids| <= |specs|
    requires n in m.nodes ==> n in r.nodes && LeftRunning(m, r, n, ids, specs, listed)
    requires listed || exists i :: 0 <= i < |ids| && n in specs[i].participants
    ensures RunsNew(s, r, n)
  {
    hide Unshared, FlagsOf, WellFormed;
  }

  /** installSubnets. No participant is ever found missing, no subnet validation ends at
      the zero time, and after a success every participant validates its subnet and has its
      config, and every node tracks exactly its old subnets and the new ones it takes part in. */
  method InstallSubnets(net: LocalNetwork, chain: PlatformChain, given: seq<SubnetSpec>, e: InstallEnv)
    returns (r: Result<seq<string>, Error>)
    requires Good(net.Contents()) && chain.Valid()
    modifies net, chain
    ensures Good(net.Contents()) && AllEndInTime(old(chain.issued), chain.issued)
    ensures Named(given) ==> r != Err(ParticipantNotInNetwork)
    ensures !e.wallet ==> r == Err(ChainUnavailable) && net.Contents() == old(net.Contents()) && chain.issued == old(chain.issued)
    ensures r.Ok? ==> |r.value| == |given| && forall i :: 0 <= i < |given| ==> e.created(i) == Some(r.value[i])
    ensures r.Ok? ==>
              var specs := Filled(given, Sorted(old(net.nodes.Keys)));
              && (forall i, t: nat :: 0 <= i < |given| && chain.time <= t ==>
                    Validating(net.nodes, chain.view(t), r.value[i], specs[i].participants))
              && (Unshared(old(net.nodes)) ==> ListsDone(old(net.Contents()), net.Contents(), r.value, specs))
              && SubnetFilesIn(net.nodes, r.value, specs)
    ensures r.Ok? ==> SubnetsUp(given, old(net.nodes.Keys), net.nodes, chain.view, chain.time, r.value)
                      && OnlyTakers(given, old(net.nodes.Keys), net.nodes, r.value, old(chain.issued), chain.issued)
                      && e.wallet && e.healthy && e.healthyAgain
    ensures r.Ok? && Unshared(old(net.nodes)) ==> ListsSay(given, old(net.Contents()), net.Contents(), r.value)
    ensures r.Ok? ==> forall i, n :: 0 <= i < |given| && TakesPart(given[i], old(net.nodes.Keys), n) ==>
              RunsNew(old(net.Contents()), net.Contents(), n)
  {
    hide RunsNew, LeftRunning, Owned, Identified, Extended, Validating, ListsDone, Unshared, Named, SubnetFilesIn, FilesStay, SubnetsUp, OnlyTakers, ListsSay,
         OnlyParticipants, FillIn;
    ghost var s := net.Contents();
    if !e.wallet { return Err(ChainUnavailable); }
    var all := SortedList(net.nodes.Keys);
    SortedUnique(all, Sorted(net.nodes.Keys));
    var specs := FillParticipants(given, all);
    if Named(given) { FilledNamed(s, given, all); }
    var made := SetUpSubnets(net, chain, specs, e);
    if made.Err? { return made; }
    ghost var m, mid := net.nodes, net.Contents();
    var err := RestartAndWait(net, chain, made.value, specs, {}, true, true, e, s);
    if err.Some? { return Err(err.value); }
    TakersRunNew(given, all, s, mid, net.Contents(), made.value);
    FilesRemain(m, net.nodes, made.value, specs, [], [], []);
    SubnetsAreUp(given, all, s.nodes.Keys, net.nodes, chain.view, chain.time, made.value);
    OnlyTakersAsked(given, all, s.nodes.Keys, m, net.nodes, made.value, old(chain.issued), chain.issued);
    if Unshared(s.nodes) { ListsAreSaid(given, all, s, net.Contents(), made.value); }
    return made;
  }

  // What an installation comes to, in terms of the specs as they were given.

  /** Everyone who takes part in a subnet validates it. */
  ghost predicate TakersValidate(spec: SubnetSpec, before: set<string>, nodes: map<string, Node>, v: View, subnet: string) {
    forall p :: TakesPart(spec, before, p) ==> p in nodes && InSubnet(v, subnet, nodes[p].id)
  }

  /** Everyone who takes part in a subnet has its config, if there is one. */
  ghost predicate TakersHaveConfig(spec: SubnetSpec, before: set<string>, nodes: map<string, Node>, subnet: string) {
    forall p :: TakesPart(spec, before, p) && spec.config.Some? ==> HasFile(nodes, p, (SubnetFile, subnet), spec.config.value)
  }

  /** Every node that takes part in a subnet validates it from some time on, and has its config. */
  ghost predicate SubnetsUp(given: seq<SubnetSpec>, before: set<string>, nodes: map<string, Node>, view: nat -> View, time: nat,
                            ids: seq<string>)
  {
    && |ids| == |given|
    && (forall i, t: nat :: 0 <= i < |given| && time <= t ==> TakersValidate(given[i], before, nodes, view(t), ids[i]))
    && (AllDistinct(ids) ==> forall i :: 0 <= i < |given| ==> TakersHaveConfig(given[i], before, nodes, ids[i]))
  }

  /** Whoever was asked to validate a subnet takes part in one. */
  ghost predicate OnlyTakers(given: seq<SubnetSpec>, before: set<string>, nodes: map<string, Node>, ids: seq<string>,
                             issued: seq<ValidatorTx>, issued': seq<ValidatorTx>)
  {
    && |ids| == |given| && |issued'| >= |issued|
    && (forall k :: |issued| <= k < |issued'| && issued'[k].AddToSubnet? ==>
          exists i, p :: 0 <= i < |given| && TakesPart(given[i], before, p) && p in nodes
                         && issued'[k].subnet == ids[i] && issued'[k].id == nodes[p].id)
  }

  /** Every node tracks what it tracked before, or what the network's flags track if it is new,
      and the subnets it takes part in. */
  ghost predicate ListsSay(given: seq<SubnetSpec>, s: State, r: State, ids: seq<string>)
    requires WellFormed(s) && WellFormed(r)
  {
    |ids| == |given| && (CommaFree(Elements(ids)) && "" !in ids ==>
      forall n :: n in r.nodes ==>
        ListSaid(given, s.nodes.Keys, ids, n, ListIn(if n in s.nodes then FlagsOf(s, n) else s.netFlags), ListIn(FlagsOf(r, n))))
  }

  lemma {:induction false} SubnetsAreUp(given: seq<SubnetSpec>, all: seq<string>, before: set<string>, nodes: map<string, Node>,
                                        view: nat -> View, time: nat, ids: seq<string>)
    requires Elements(all) == before && |ids| == |given| && SubnetFilesIn(nodes, ids, Filled(given, all))
    requires forall i, t: nat :: 0 <= i < |ids| && time <= t ==> Validating(nodes, view(t), ids[i], Filled(given, all)[i].participants)
    ensures SubnetsUp(given, before, nodes, view, time, ids)
  {
    hide FillIn, InSubnet, AllDistinct, TakersValidate, TakersHaveConfig, Validating, SubnetFilesIn;
    var specs := Filled(given, all);
    forall i, t: nat | 0 <= i < |given| && time <= t ensures TakersValidate(given[i], before, nodes, view(t), ids[i]) {
      assert Validating(nodes, view(t), ids[i], specs[i].participants);
      TakersDo(given[i], all, before, nodes, view(t), ids[i]);
    }
    forall i | AllDistinct(ids) && 0 <= i < |given| ensures TakersHaveConfig(given[i], before, nodes, ids[i]) {
      assert Validating(nodes, view(time), ids[i], specs[i].participants);
      TakersHave(given[i], all, before, nodes, view(time), ids, specs, i);
    }
  }

  lemma TakersDo(spec: SubnetSpec, all: seq<string>, before: set<string>, nodes: map<string, Node>, v: View, subnet: string)
    requires Elements(all) == before && Validating(nodes, v, subnet, FillIn(spec, all).participants)
    ensures TakersValidate(spec, before, nodes, v, subnet)
  {
    hide FillIn, InSubnet;
    FillInMeans(spec, all, before);
  }

  lemma TakersHave(spec: SubnetSpec, all: seq<string>, before: set<string>, nodes: map<string, Node>, v: View, ids: seq<string>,
                   specs: seq<SubnetSpec>, i: nat)
    requires Elements(all) == before && i < |ids| <= |specs| && specs[i] == FillIn(spec, all) && AllDistinct(ids)
    requires SubnetFilesIn(nodes, ids, specs) && Validating(nodes, v, ids[i], specs[i].participants)
    ensures TakersHaveConfig(spec, before, nodes, ids[i])
  {
    hide FillIn, InSubnet, AllDistinct, HasFile;
    FillInMeans(spec, all, before);
    forall p | TakesPart(spec, before, p) && spec.config.Some? ensures HasFile(nodes, p, (SubnetFile, ids[i]), spec.config.value) {
      assert p in specs[i].participants;
    }
  }

  lemma TakersRunNew(given: seq<SubnetSpec>, all: seq<string>, s: State, m: State, r: State, ids: seq<string>)
    requires WellFormed(s) && WellFormed(m) && Extended(s, m) && Elements(all) == s.nodes.Keys && |ids| == |given|
    requires forall n :: n in m.nodes ==> n in r.nodes && LeftRunning(m, r, n, ids, Filled(given, all), n in {})
    ensures forall i, n :: 0 <= i < |given| && TakesPart(given[i], s.nodes.Keys, n) ==> RunsNew(s, r, n)
  {
    hide FillIn, Extended, LeftRunning, RunsNew, WellFormed, TakesPart;
    var specs := Filled(given, all);
    forall i, n | 0 <= i < |given| && TakesPart(given[i], s.nodes.Keys, n) ensures RunsNew(s, r, n) {
      FillInMeans(given[i], all, s.nodes.Keys);
      assert n in specs[i].participants;
      NotLeftRunning(s, m, r, n, ids, specs, n in {});
    }
  }

  lemma OnlyTakersAsked(given: seq<SubnetSpec>, all: seq<string>, before: set<string>, m: map<string, Node>, nodes: map<string, Node>,
                        ids: seq<string>, issued: seq<ValidatorTx>, issued': seq<ValidatorTx>)
    requires Elements(all) == before && |ids| == |given| && SameIds(m, nodes)
    requires OnlyParticipants(m, ids, Filled(given, all), issued, issued')
    ensures OnlyTakers(given, before, nodes, ids, issued, issued')
  {
    hide FillIn;
    var specs := Filled(given, all);
    forall k | |issued| <= k < |issued'| && issued'[k].AddToSubnet?
      ensures exists i, p :: 0 <= i < |given| && TakesPart(given[i], before, p) && p in nodes
                             && issued'[k].subnet == ids[i] && issued'[k].id == nodes[p].id
    {
      var i, p :| 0 <= i < |ids| && p in specs[i].participants && p in m && issued'[k].subnet == ids[i] && issued'[k].id == m[p].id;
      FillInMeans(given[i], all, before);
      assert TakesPart(given[i], before, p) && p in nodes && nodes[p].id == m[p].id;
    }
  }

  lemma ListsAreSaid(given: seq<SubnetSpec>, all: seq<string>, s: State, r: State, ids: seq<string>)
    requires WellFormed(s) && WellFormed(r) && Elements(all) == s.nodes.Keys && |ids| == |given|
    requires ListsDone(s, r, ids, Filled(given, all))
    ensures ListsSay(given, s, r, ids)
  {
    hide FillIn, WellFormed, ListIn, NewFor, TrackedAfter, ListSaid, CommaFree, Filled;
    var specs := Filled(given, all);
    assert |specs| == |given| by { FilledLength(given, all); }
    if CommaFree(Elements(ids)) && "" !in ids {
      forall n | n in r.nodes
        ensures ListIn(FlagsOf(r, n)) == TrackedAfter(ListBefore(s, n), NewFor(ids, specs, n))
        ensures ListSaid(given, s.nodes.Keys, ids, n, ListIn(if n in s.nodes then FlagsOf(s, n) else s.netFlags), ListIn(FlagsOf(r, n)))
      {
        assert ListBefore(s, n) == ListIn(if n in s.nodes then FlagsOf(s, n) else s.netFlags);
        ListInStr(FlagsOf(r, n), TrackedAfter(ListBefore(s, n), NewFor(ids, specs, n)));
        OneListSaid(given, all, s.nodes.Keys, ids, n, ListBefore(s, n));
      }
    }
  }

  lemma FilledLength(given: seq<SubnetSpec>, all: seq<string>)
    ensures |Filled(given, all)| == |given|
  {
  }

  lemma ListInStr(flags: FlagMap, list: string)
    requires TrackSubnets in flags && flags[TrackSubnets] == Str(list)
    ensures ListIn(flags) == list
  {
  }

  /** One list of ListsSay. */
  ghost predicate ListSaid(given: seq<SubnetSpec>, before: set<string>, ids: seq<string>, n: string, was: string, now: string)
    requires |ids| == |given|
  {
    && StrictlySorted(Split(now, ','))
    && ((forall x :: Tracks(now, x)
                     <==> Tracks(was, x) || exists i :: 0 <= i < |given| && ids[i] == x && TakesPart(given[i], before, n))
        <==> !(OnlyCommas(was) && forall i :: 0 <= i < |given| ==> !TakesPart(given[i], before, n)))
  }

  lemma OneListSaid(given: seq<SubnetSpec>, all: seq<string>, before: set<string>, ids: seq<string>, n: string, was: string)
    requires Elements(all) == before && |ids| == |given| == |Filled(given, all)| && CommaFree(Elements(ids)) && "" !in ids
    ensures ListSaid(given, before, ids, n, was, TrackedAfter(was, NewFor(ids, Filled(given, all), n)))
  {
    hide FillIn, TrackedAfter, OnlyCommas, Tracks, StrictlySorted;
    var specs := Filled(given, all);
    var added := NewFor(ids, specs, n);
    forall i | 0 <= i < |given| ensures n in specs[i].participants <==> TakesPart(given[i], before, n) {
      FillInMeans(given[i], all, before);
    }
    forall x ensures x in added <==> exists i :: 0 <= i < |given| && ids[i] == x && TakesPart(given[i], before, n) { }
    forall x | x in added ensures ',' !in x && x != "" {
      assert x in ids;
      assert x in Elements(ids);
    }
    TrackedAfterMeans(was, added);
    if i :| 0 <= i < |given| && TakesPart(given[i], before, n) { assert ids[i] in added; }
  }

  lemma FilledNamed(s: State, given: seq<SubnetSpec>, all: seq<string>)
    requires Good(s) && Elements(all) == s.nodes.Keys && Named(given)
    ensures Named(Filled(given, all))
  {
    hide Owned;
    assert "" in all <==> "" in Elements(all);
  }

  /** What the outside answers about the blockchains: the ID of each, whether the plugins
      load, and whether the platform chain accepts the blockchains. */
  datatype ChainEnv = ChainEnv(ids: nat -> Option<string>, plugins: bool, accepted: bool)

  datatype ChainInfo = ChainInfo(vmName: string, subnet: string, id: string)

  /** createBlockchainTxs. */
  method CreateChainTxs(chains: seq<ChainSpec>, e: ChainEnv) returns (r: Result<seq<string>, Error>)
    ensures r.Ok? <==> forall i :: 0 <= i < |chains| ==> e.ids(i).Some?
    ensures r.Ok? ==> |r.value| == |chains| && forall i :: 0 <= i < |chains| ==> r.value[i] == e.ids(i).value
    ensures r.Err? ==> r.error == ChainUnavailable
  {
    r := CreateSubnets(|chains|, e.ids);
  }

  /** The subnet a blockchain goes to: the one it names, or the next new one. */
  ghost function SubnetFor(chains: seq<ChainSpec>, e: InstallEnv, k: nat): Option<string>
    requires k < |chains|
  {
    if chains[k].subnetId.Some? then chains[k].subnetId else e.created(MissingBefore(chains, k))
  }

  /** The new subnets and their specs: one for each blockchain that names none. */
  ghost predicate NewSubnets(chains: seq<ChainSpec>, e: InstallEnv, all: seq<string>, ids: seq<string>, specs: seq<SubnetSpec>) {
    && |ids| == |specs| == MissingBefore(chains, |chains|)
    && (forall k :: 0 <= k < |chains| && chains[k].subnetId.None? ==>
          var j := MissingBefore(chains, k);
          j < |ids| && e.created(j) == Some(ids[j]) && specs[j] == FillIn(SpecOf(chains[k]), all))
  }

  lemma {:induction false} NewSubnetsFound(chains: seq<ChainSpec>, e: InstallEnv, given: seq<SubnetSpec>, all: seq<string>, ids: seq<string>)
    requires |ids| == |given| == MissingBefore(chains, |chains|)
    requires forall k :: 0 <= k < |chains| && chains[k].subnetId.None? ==>
               MissingBefore(chains, k) < |given| && given[MissingBefore(chains, k)] == SpecOf(chains[k])
    requires forall i :: 0 <= i < |ids| ==> e.created(i) == Some(ids[i])
    ensures NewSubnets(chains, e, all, ids, Filled(given, all))
  {
  }

  /** What installCustomChains has worked out before it restarts the nodes: the blockchains
      with their subnets, their IDs, the new subnets and the nodes to restart. */
  datatype Plan = Plan(placed: seq<ChainSpec>, chainIds: seq<string>, subnetIds: seq<string>, specs: seq<SubnetSpec>, restart: set<string>)

  /** Every blockchain is in the subnet it names or in the new one of its own. */
  ghost predicate Planned(chains: seq<ChainSpec>, e: InstallEnv, ce: ChainEnv, all: seq<string>, plan: Plan) {
    && |plan.placed| == |chains| == |plan.chainIds| && NewSubnets(chains, e, all, plan.subnetIds, plan.specs)
    && (forall k :: 0 <= k < |chains| ==>
          && SubnetFor(chains, e, k).Some? && plan.placed[k] == chains[k].(subnetId := SubnetFor(chains, e, k))
          && ce.ids(k) == Some(plan.chainIds[k]))
  }

  lemma {:induction false} PlanIsRight(chains: seq<ChainSpec>, e: InstallEnv, ce: ChainEnv, given: seq<SubnetSpec>, all: seq<string>, plan: Plan)
    requires |plan.placed| == |chains| == |plan.chainIds| && plan.specs == Filled(given, all)
    requires |plan.subnetIds| == |given| == MissingBefore(chains, |chains|)
    requires forall k :: 0 <= k < |chains| && chains[k].subnetId.None? ==>
               MissingBefore(chains, k) < |given| && given[MissingBefore(chains, k)] == SpecOf(chains[k])
               && plan.placed[k] == chains[k].(subnetId := Some(plan.subnetIds[MissingBefore(chains, k)]))
    requires forall k :: 0 <= k < |chains| && chains[k].subnetId.Some? ==> plan.placed[k] == chains[k]
    requires forall i :: 0 <= i < |given| ==> e.created(i) == Some(plan.subnetIds[i])
    requires forall k :: 0 <= k < |chains| ==> ce.ids(k) == Some(plan.chainIds[k])
    ensures Planned(chains, e, ce, all, plan)
  {
    NewSubnetsFound(chains, e, given, all, plan.subnetIds);
    hide NewSubnets, SpecOf;
  }

  /** No blockchain that needs a new subnet names the empty name as a participant. */
  ghost predicate AllNamed(chains: seq<ChainSpec>) {
    forall k :: 0 <= k < |chains| && chains[k].subnetId.None? && chains[k].subnetSpec.Some? ==>
      "" !in chains[k].subnetSpec.value.participants
  }

  /** The participants that were found for each blockchain. */
  ghost predicate PartsFound(nodes: map<string, Node>, view: nat -> View, plan: Plan, parts: seq<seq<string>>) {
    && |parts| == |plan.placed| && |plan.subnetIds| <= |plan.specs|
    && (forall k :: 0 <= k < |parts| ==>
          plan.placed[k].subnetId.Some?
          && PartsOf(nodes, view, plan.subnetIds, plan.specs, plan.placed[k].subnetId.value, parts[k]))
  }

  /** installCustomChains up to the restart of the nodes. */
  method PlanChains(net: LocalNetwork, chain: PlatformChain, chains: seq<ChainSpec>, e: InstallEnv, ce: ChainEnv)
    returns (r: Result<Plan, Error>, ghost parts: seq<seq<string>>)
    requires Good(net.Contents()) && chain.Valid()
    modifies net, chain
    ensures chain.time >= old(chain.time)
    ensures Good(net.Contents()) && Extended(old(net.Contents()), net.Contents())
    ensures AllEndInTime(old(chain.issued), chain.issued)
    ensures AllNamed(chains) ==> r != Err(ParticipantNotInNetwork)
    ensures !e.wallet ==> r == Err(ChainUnavailable) && net.Contents() == old(net.Contents()) && chain.issued == old(chain.issued)
    ensures r.Ok? && AllNamed(chains) ==> Present(net.nodes, r.value.specs)
    ensures r.Ok? ==> |r.value.subnetIds| <= |r.value.specs| && e.wallet && e.healthy
                      && OnlyParticipants(net.nodes, r.value.subnetIds, r.value.specs, old(chain.issued), chain.issued)
    ensures r.Ok? ==> Planned(chains, e, ce, Sorted(old(net.nodes.Keys)), r.value)
    ensures r.Ok? ==> PartsFound(net.nodes, chain.view, r.value, parts) && r.value.restart == ToRestart(r.value.placed, parts, |parts|)
    ensures r.Ok? ==> SubnetFilesIn(net.nodes, r.value.subnetIds, r.value.specs)
                      && ChainFilesIn(net.nodes, r.value.placed, r.value.chainIds, parts)
  {
    hide Good, Extended, Named, OnlyFiles, ToRestart, ChainFiles, PartsOf, Present, AllNamed, AllEndInTime, Planned, SubnetFilesIn, OnlyParticipants,
         ChainFilesIn, WellFormed, AllDistinct, Filled, FillIn, SubnetFor, SpecOf, MissingBefore, StrictlySorted, SameIds;
    ghost var s := net.Contents();
    GoodIsWellFormed(s);
    parts := [];
    ExtendedSame(s, s);
    NothingIssued(chain.issued);
    if !e.wallet { r := Err(ChainUnavailable); return; }
    var given := CollectSpecs(chains);
    var all := SortedList(net.nodes.Keys);
    SortedUnique(all, Sorted(net.nodes.Keys));
    var specs := FillParticipants(given, all);
    if AllNamed(chains) { CollectedNamed(chains, given); FilledNamed(s, given, all); }
    var made := SetUpSubnets(net, chain, specs, e);
    if made.Err? { r := Err(made.error); return; }
    var placed := AssignSubnets(chains, made.value);
    var txs := CreateChainTxs(placed, ce);
    if txs.Err? { r := Err(txs.error); return; }
    ghost var m := net.Contents();
    GoodIsWellFormed(m);
    var err, restart;
    err, restart, parts := SetBlockchainConfigFiles(net, chain, placed, txs.value, made.value, specs);
    OnlyFilesExtends(m, net.Contents());
    ExtendedTwice(s, m, net.Contents());
    PresentSame(m.nodes, net.nodes, specs);
    if err.Some? { r := Err(err.value); return; }
    OnlyFilesSameIds(m, net.Contents());
    ParticipantsSameIds(m.nodes, net.nodes, made.value, specs, old(chain.issued), chain.issued);
    FilesAndParts(m.nodes, net.nodes, chain.view, placed, txs.value, made.value, specs, parts);
    r := Ok(Plan(placed, txs.value, made.value, specs, restart));
    PlanIsRight(chains, e, ce, given, all, r.value);
  }

  lemma {:induction false} FilesAndParts(before: map<string, Node>, nodes: map<string, Node>, view: nat -> View, placed: seq<ChainSpec>,
                                         aliases: seq<string>, ids: seq<string>, specs: seq<SubnetSpec>, parts: seq<seq<string>>)
    requires |placed| == |aliases| == |parts| && |ids| <= |specs| && SameIds(nodes, before) && nodes.Keys == before.Keys
    requires forall n :: n in nodes ==> n in before && nodes[n].cfg.files == ChainFiles(before[n].cfg.files, placed, aliases, parts, n, |placed|)
    requires SubnetFilesIn(before, ids, specs)
    requires forall k :: 0 <= k < |placed| ==>
               placed[k].subnetId.Some? && PartsOf(before, view, ids, specs, placed[k].subnetId.value, parts[k])
    ensures SubnetFilesIn(nodes, ids, specs) && ChainFilesIn(nodes, placed, aliases, parts)
    ensures forall k :: 0 <= k < |placed| ==> PartsOf(nodes, view, ids, specs, placed[k].subnetId.value, parts[k])
  {
    hide SubnetFilesIn, ChainFilesIn, PartsOf, ChainFiles;
    ChainFilesAreIn(before, nodes, placed, aliases, parts);
    SubnetFilesRemain(before, nodes, placed, aliases, parts, ids, specs);
    forall k | 0 <= k < |placed| ensures PartsOf(nodes, view, ids, specs, placed[k].subnetId.value, parts[k]) {
      PartsSameIds(before, nodes, view, ids, specs, placed[k].subnetId.value, parts[k]);
    }
  }

  /** installCustomChains. As for installSubnets; and each blockchain is created in the subnet
      it names, or in the new subnet of its own, and its participants have its files. Without
      new subnets and without files no node is restarted and no tracked list is written. */
  method InstallCustomChains(net: LocalNetwork, chain: PlatformChain, chains: seq<ChainSpec>, e: InstallEnv, ce: ChainEnv)
    returns (r: Result<seq<ChainInfo>, Error>, ghost plan: Plan, ghost parts: seq<seq<string>>)
    requires Good(net.Contents()) && chain.Valid()
    modifies net, chain
    ensures Good(net.Contents()) && AllEndInTime(old(chain.issued), chain.issued)
    ensures AllNamed(chains) ==> r != Err(ParticipantNotInNetwork)
    ensures !e.wallet ==> r == Err(ChainUnavailable) && net.Contents() == old(net.Contents()) && chain.issued == old(chain.issued)
    ensures r.Ok? ==> Planned(chains, e, ce, Sorted(old(net.nodes.Keys)), plan) && |r.value| == |chains|
                      && forall k :: 0 <= k < |chains| ==>
                           r.value[k] == ChainInfo(chains[k].vmName, SubnetFor(chains, e, k).value, ce.ids(k).value)
    ensures r.Ok? ==> forall i, t: nat :: 0 <= i < |plan.subnetIds| && chain.time <= t ==>
              Validating(net.nodes, chain.view(t), plan.subnetIds[i], plan.specs[i].participants)
    ensures r.Ok? ==> PartsFound(net.nodes, chain.view, plan, parts)
                      && SubnetFilesIn(net.nodes, plan.subnetIds, plan.specs)
                      && ChainFilesIn(net.nodes, plan.placed, plan.chainIds, parts)
    ensures r.Ok? && Unshared(old(net.nodes)) ==>
              if plan.subnetIds != [] || ToRestart(plan.placed, parts, |parts|) != {}
              then ListsDone(old(net.Contents()), net.Contents(), plan.subnetIds, plan.specs)
              else Extended(old(net.Contents()), net.Contents())
    ensures r.Ok? ==> ChainsUp(chains, e, ce, old(net.nodes.Keys), net.nodes, chain.view, chain.time, r.value)
                      && ChainFilesUp(chains, old(net.nodes.Keys), net.nodes, chain.view, r.value)
                      && OnlyChainTakers(chains, old(net.nodes.Keys), net.nodes, r.value, old(chain.issued), chain.issued)
                      && e.wallet && e.healthy && ce.plugins && ce.accepted
    ensures r.Ok? && Unshared(old(net.nodes)) && (exists k :: 0 <= k < |chains| && chains[k].subnetId.None?) ==>
              ChainListsSay(chains, old(net.Contents()), net.Contents(), r.value)
    ensures r.Ok? ==> |parts| == |chains| && forall k, n :: 0 <= k < |chains| && NeedsRestart(chains[k], old(net.nodes.Keys), parts[k], n) ==>
              RunsNew(old(net.Contents()), net.Contents(), n)
  {
    hide NeedsRestart, RunsNew, LeftRunning, ChainsUp, ChainFilesUp, OnlyChainTakers, ChainListsSay, OnlyParticipants, Planned,
         PartsFound, Good, Extended, Validating, ListsDone, Unshared, Present, AllNamed, AllEndInTime, WellFormed, StrictlySorted,
         SubnetFilesIn, ChainFilesIn, FilesStay, SameIds, PartsOf, ToRestart, SubnetFor, SpecOf, FillIn, MissingBefore;
    ghost var s := net.Contents();
    GoodIsWellFormed(s);
    plan := Plan([], [], [], [], {});
    var planned;
    planned, parts := PlanChains(net, chain, chains, e, ce);
    if planned.Err? { r := Err(planned.error); return; }
    var p := planned.value;
    plan := p;
    ghost var m, mid := net.nodes, net.Contents();
    GoodIsWellFormed(net.Contents());
    PlannedLengths(chains, e, ce, Sorted(s.nodes.Keys), p, parts, net.nodes, chain.view);
    var err := RestartAndWait(net, chain, p.subnetIds, p.specs, p.restart, false, ce.plugins, e, s);
    if err.Some? { r := Err(err.value); return; }
    if !ce.accepted { r := Err(ChainUnavailable); return; }
    StillFound(m, net.nodes, chain.view, p, parts);
    assert SameIds(net.nodes, m) by { SameIdsBack(m, net.nodes); }
    ParticipantsSameIds(m, net.nodes, p.subnetIds, p.specs, old(chain.issued), chain.issued);
    var infos := MakeInfos(p.placed, p.chainIds);
    r := Ok(infos);
    InfosArePlanned(chains, e, ce, Sorted(s.nodes.Keys), p, infos);
    ChainsAreUp(chains, e, ce, Sorted(s.nodes.Keys), s.nodes.Keys, p, net.nodes, chain.view, chain.time, infos);
    ChainFilesAreUp(chains, e, ce, Sorted(s.nodes.Keys), s.nodes.Keys, p, parts, net.nodes, chain.view, infos);
    OnlyChainTakersAsked(chains, e, ce, Sorted(s.nodes.Keys), s.nodes.Keys, p, net.nodes, infos, old(chain.issued), chain.issued);
    ChainTakersRunNew(chains, e, ce, Sorted(s.nodes.Keys), s, mid, net.Contents(), p, parts, infos);
    if Unshared(s.nodes) && exists k :: 0 <= k < |chains| && chains[k].subnetId.None? {
      SomeSubnetIsNew(chains, e, ce, Sorted(s.nodes.Keys), p);
      GoodIsWellFormed(net.Contents());
      ChainListsAreSaid(chains, e, ce, Sorted(s.nodes.Keys), s, net.Contents(), p, infos);
    }
  }

  /** A node takes part in the new subnet of a blockchain, or in a blockchain that comes with files. */
  ghost predicate NeedsRestart(c: ChainSpec, before: set<string>, names: seq<string>, n: string) {
    || (c.subnetId.None? && TakesPartIn(c, before, n))
    || (n in names && (c.chainConfig.Some? || c.perNodeConfig != map[] || c.upgrade.Some?))
  }

  lemma {:induction false} ChainTakersRunNew(chains: seq<ChainSpec>, e: InstallEnv, ce: ChainEnv, all: seq<string>, s: State, m: State, r: State,
                                             plan: Plan, parts: seq<seq<string>>, infos: seq<ChainInfo>)
    requires WellFormed(s) && WellFormed(m) && Extended(s, m) && Elements(all) == s.nodes.Keys
    requires Planned(chains, e, ce, all, plan) && InfosOf(chains, plan, infos)
    requires |parts| == |chains| == |plan.placed| && |plan.subnetIds| == |plan.specs| && plan.restart == ToRestart(plan.placed, parts, |parts|)
    requires plan.specs != [] || plan.restart != {} ==>
               forall n :: n in m.nodes ==> n in r.nodes && LeftRunning(m, r, n, plan.subnetIds, plan.specs, n in plan.restart)
    ensures forall k, n :: 0 <= k < |chains| && NeedsRestart(chains[k], s.nodes.Keys, parts[k], n) ==> RunsNew(s, r, n)
  {
    hide Extended, LeftRunning, RunsNew, WellFormed, TakesPartIn, Planned, ToRestart, MissingBefore;
    forall k, n | 0 <= k < |chains| && NeedsRestart(chains[k], s.nodes.Keys, parts[k], n) ensures RunsNew(s, r, n) {
      ToRestartHas(plan.placed, parts, |parts|, n);
      assert plan.placed[k] == chains[k].(subnetId := Some(infos[k].subnet));
      if chains[k].subnetId.None? && TakesPartIn(chains[k], s.nodes.Keys, n) {
        PlannedFor(chains, e, ce, all, s.nodes.Keys, plan, infos, k);
        assert n in plan.specs[MissingBefore(chains, k)].participants;
      }
      NotLeftRunning(s, m, r, n, plan.subnetIds, plan.specs, n in plan.restart);
    }
  }

  lemma SameIdsBack(nodes: map<string, Node>, nodes': map<string, Node>)
    requires SameIds(nodes, nodes')
    ensures SameIds(nodes', nodes)
  {
  }

  lemma PlannedLengths(chains: seq<ChainSpec>, e: InstallEnv, ce: ChainEnv, all: seq<string>, plan: Plan, parts: seq<seq<string>>,
                       nodes: map<string, Node>, view: nat -> View)
    requires Planned(chains, e, ce, all, plan) && PartsFound(nodes, view, plan, parts)
    ensures |plan.placed| == |plan.chainIds| == |parts| == |chains| && |plan.subnetIds| == |plan.specs|
    ensures forall k :: 0 <= k < |chains| ==> plan.placed[k].subnetId.Some?
  {
    hide PartsOf, SubnetFor, MissingBefore, FillIn, SpecOf;
  }

  // What it comes to, in terms of the blockchains as they were given.

  /** Everyone who takes part in the new subnet of a blockchain validates it. */
  ghost predicate ChainTakersValidate(c: ChainSpec, before: set<string>, nodes: map<string, Node>, v: View, subnet: string) {
    forall p :: TakesPartIn(c, before, p) ==> p in nodes && InSubnet(v, subnet, nodes[p].id)
  }

  /** Everyone who takes part in the new subnet of a blockchain has its config, if there is one. */
  ghost predicate ChainTakersHaveConfig(c: ChainSpec, before: set<string>, nodes: map<string, Node>, subnet: string) {
    forall p :: TakesPartIn(c, before, p) && c.subnetSpec.Some? && c.subnetSpec.value.config.Some? ==>
      HasFile(nodes, p, (SubnetFile, subnet), c.subnetSpec.value.config.value)
  }

  /** Every blockchain is in the subnet it names, or in a new one: the next that was created,
      which everyone who takes part in it validates from some time on and has the config of. */
  ghost predicate ChainsUp(chains: seq<ChainSpec>, e: InstallEnv, ce: ChainEnv, before: set<string>, nodes: map<string, Node>,
                           view: nat -> View, time: nat, infos: seq<ChainInfo>)
  {
    && |infos| == |chains|
    && (forall k :: 0 <= k < |chains| ==>
          && infos[k].vmName == chains[k].vmName && ce.ids(k) == Some(infos[k].id)
          && (if chains[k].subnetId.Some? then infos[k].subnet == chains[k].subnetId.value
              else e.created(|Needing(chains, k)|) == Some(infos[k].subnet)))
    && (forall k, t: nat :: 0 <= k < |chains| && chains[k].subnetId.None? && time <= t ==>
          ChainTakersValidate(chains[k], before, nodes, view(t), infos[k].subnet))
    && (NewSubnetsDiffer(chains, infos) ==>
          forall k :: 0 <= k < |chains| && chains[k].subnetId.None? ==>
            ChainTakersHaveConfig(chains[k], before, nodes, infos[k].subnet))
  }

  /** No subnet was created twice. */
  ghost predicate NewSubnetsDiffer(chains: seq<ChainSpec>, infos: seq<ChainInfo>)
    requires |infos| == |chains|
  {
    forall k, l :: 0 <= k < l < |chains| && chains[k].subnetId.None? && chains[l].subnetId.None? ==> infos[k].subnet != infos[l].subnet
  }

  /** The files of a blockchain are on a node. */
  ghost predicate ChainFilesOn(c: ChainSpec, id: string, nodes: map<string, Node>, p: string) {
    && (c.chainConfig.Some? || c.perNodeConfig != map[] ==> HasConfigFile(nodes, p, id, c))
    && (c.upgrade.Some? ==> HasFile(nodes, p, (UpgradeFile, id), c.upgrade.value))
  }

  /** With distinct blockchains and subnets, the files of a blockchain are with everyone who
      takes part in its new subnet, or with every node that validated its old one in some view. */
  ghost predicate ChainFilesUp(chains: seq<ChainSpec>, before: set<string>, nodes: map<string, Node>, view: nat -> View, infos: seq<ChainInfo>)
  {
    && |infos| == |chains|
    && (NewSubnetsDiffer(chains, infos) && (forall k, l :: 0 <= k < l < |chains| ==> infos[k].id != infos[l].id) ==>
          && (forall k, p :: 0 <= k < |chains| && chains[k].subnetId.None? && TakesPartIn(chains[k], before, p) && p in nodes ==>
                ChainFilesOn(chains[k], infos[k].id, nodes, p))
          && (forall k :: 0 <= k < |chains| && chains[k].subnetId.Some?
                          && (forall l :: 0 <= l < |chains| && chains[l].subnetId.None? ==> infos[l].subnet != infos[k].subnet) ==>
                exists t: nat :: ValidatorsHaveFiles(chains[k], infos[k], nodes, view(t))))
  }

  /** Every node that validates the subnet of a blockchain has its files. */
  ghost predicate ValidatorsHaveFiles(c: ChainSpec, info: ChainInfo, nodes: map<string, Node>, v: View) {
    forall p :: p in nodes && InSubnet(v, info.subnet, nodes[p].id) ==> ChainFilesOn(c, info.id, nodes, p)
  }

  /** Whoever was asked to validate a subnet takes part in a new one. */
  ghost predicate OnlyChainTakers(chains: seq<ChainSpec>, before: set<string>, nodes: map<string, Node>, infos: seq<ChainInfo>,
                                  issued: seq<ValidatorTx>, issued': seq<ValidatorTx>)
  {
    && |infos| == |chains| && |issued'| >= |issued|
    && (forall n :: |issued| <= n < |issued'| && issued'[n].AddToSubnet? ==>
          exists k, p :: 0 <= k < |chains| && chains[k].subnetId.None? && TakesPartIn(chains[k], before, p) && p in nodes
                         && issued'[n].subnet == infos[k].subnet && issued'[n].id == nodes[p].id)
  }

  /** Every node tracks what it tracked before and the new subnets it takes part in. */
  ghost predicate ChainListsSay(chains: seq<ChainSpec>, s: State, r: State, infos: seq<ChainInfo>)
    requires WellFormed(s) && WellFormed(r)
  {
    && |infos| == |chains|
    && ((forall k :: 0 <= k < |chains| && chains[k].subnetId.None? ==> ',' !in infos[k].subnet && infos[k].subnet != "") ==>
          forall n :: n in r.nodes ==>
            ChainListSaid(chains, s.nodes.Keys, infos, n, ListIn(if n in s.nodes then FlagsOf(s, n) else s.netFlags), ListIn(FlagsOf(r, n))))
  }

  ghost predicate ChainListSaid(chains: seq<ChainSpec>, before: set<string>, infos: seq<ChainInfo>, n: string, was: string, now: string)
    requires |infos| == |chains|
  {
    && StrictlySorted(Split(now, ','))
    && ((forall x :: Tracks(now, x)
                     <==> Tracks(was, x)
                          || exists k :: 0 <= k < |chains| && chains[k].subnetId.None? && infos[k].subnet == x && TakesPartIn(chains[k], before, n))
        <==> !(OnlyCommas(was) && forall k :: 0 <= k < |chains| && chains[k].subnetId.None? ==> !TakesPartIn(chains[k], before, n)))
  }

  /** The infos are those of the plan. */
  ghost predicate InfosOf(chains: seq<ChainSpec>, plan: Plan, infos: seq<ChainInfo>) {
    && |infos| == |chains| == |plan.placed| == |plan.chainIds| && |plan.subnetIds| == |plan.specs| == MissingBefore(chains, |chains|)
    && (forall k :: 0 <= k < |chains| ==>
          && infos[k].id == plan.chainIds[k] && infos[k].vmName == chains[k].vmName
          && plan.placed[k] == chains[k].(subnetId := Some(infos[k].subnet))
          && (chains[k].subnetId.Some? ==> infos[k].subnet == chains[k].subnetId.value)
          && (chains[k].subnetId.None? ==>
                MissingBefore(chains, k) < |plan.subnetIds| && infos[k].subnet == plan.subnetIds[MissingBefore(chains, k)]))
  }

  lemma {:induction false} InfosArePlanned(chains: seq<ChainSpec>, e: InstallEnv, ce: ChainEnv, all: seq<string>, plan: Plan, infos: seq<ChainInfo>)
    requires Planned(chains, e, ce, all, plan) && |infos| == |chains|
    requires forall k :: 0 <= k < |chains| ==>
               plan.placed[k].subnetId.Some? && infos[k] == ChainInfo(plan.placed[k].vmName, plan.placed[k].subnetId.value, plan.chainIds[k])
    ensures InfosOf(chains, plan, infos)
    ensures forall k :: 0 <= k < |chains| ==>
              infos[k] == ChainInfo(chains[k].vmName, SubnetFor(chains, e, k).value, ce.ids(k).value)
  {
    hide FillIn, SpecOf;
  }

  /** What the plan has for a blockchain without a subnet. */
  lemma {:induction false} PlannedFor(chains: seq<ChainSpec>, e: InstallEnv, ce: ChainEnv, all: seq<string>, before: set<string>, plan: Plan,
                                      infos: seq<ChainInfo>, k: nat)
    requires Planned(chains, e, ce, all, plan) && InfosOf(chains, plan, infos) && Elements(all) == before
    requires k < |chains| && chains[k].subnetId.None?
    ensures var j := MissingBefore(chains, k);
            && j == |Needing(chains, k)| && j < |plan.subnetIds| && e.created(j) == Some(infos[k].subnet)
            && infos[k].subnet == plan.subnetIds[j]
            && (forall p :: p in plan.specs[j].participants <==> TakesPartIn(chains[k], before, p))
            && plan.specs[j].config == (if chains[k].subnetSpec.Some? then chains[k].subnetSpec.value.config else None)
            && (plan.specs[j].participants == [] <==> forall p :: !TakesPartIn(chains[k], before, p))
  {
    hide FillIn, SpecOf, MissingBefore, TakesPartIn;
    MissingCounts(chains, k);
    SpecOfMeans(chains[k], all, before);
    var names := plan.specs[MissingBefore(chains, k)].participants;
    assert names != [] ==> names[0] in names;
  }

  lemma NewIdsDiffer(chains: seq<ChainSpec>, plan: Plan, infos: seq<ChainInfo>)
    requires InfosOf(chains, plan, infos) && NewSubnetsDiffer(chains, infos)
    ensures AllDistinct(plan.subnetIds)
  {
    hide MissingBefore;
    forall i, j | 0 <= i < j < |plan.subnetIds| ensures plan.subnetIds[i] != plan.subnetIds[j] {
      var k := ChainOf(chains, |chains|, i);
      var l := ChainOf(chains, |chains|, j);
      assert infos[k].subnet == plan.subnetIds[i] && infos[l].subnet == plan.subnetIds[j] && k != l;
      if k < l { assert infos[k].subnet != infos[l].subnet; } else { assert infos[l].subnet != infos[k].subnet; }
    }
  }

  lemma {:induction false} ChainsAreUp(chains: seq<ChainSpec>, e: InstallEnv, ce: ChainEnv, all: seq<string>, before: set<string>, plan: Plan,
                                       nodes: map<string, Node>, view: nat -> View, time: nat, infos: seq<ChainInfo>)
    requires Planned(chains, e, ce, all, plan) && InfosOf(chains, plan, infos) && Elements(all) == before
    requires SubnetFilesIn(nodes, plan.subnetIds, plan.specs)
    requires forall i, t: nat :: 0 <= i < |plan.subnetIds| && time <= t ==>
               Validating(nodes, view(t), plan.subnetIds[i], plan.specs[i].participants)
    ensures ChainsUp(chains, e, ce, before, nodes, view, time, infos)
  {
    hide MissingBefore, TakesPartIn, InSubnet, AllDistinct, NewSubnetsDiffer, NewSubnets, SubnetFor, Needing, Validating, SubnetFilesIn,
         ChainTakersValidate, ChainTakersHaveConfig, FillIn, SpecOf;
    forall k | 0 <= k < |chains| && chains[k].subnetId.None? ensures e.created(|Needing(chains, k)|) == Some(infos[k].subnet) {
      PlannedFor(chains, e, ce, all, before, plan, infos, k);
    }
    forall k, t: nat | 0 <= k < |chains| && chains[k].subnetId.None? && time <= t
      ensures ChainTakersValidate(chains[k], before, nodes, view(t), infos[k].subnet)
    {
      PlannedFor(chains, e, ce, all, before, plan, infos, k);
      ChainTakersDo(chains[k], before, nodes, view(t), infos[k].subnet, plan.specs[MissingBefore(chains, k)].participants);
    }
    forall k | NewSubnetsDiffer(chains, infos) && 0 <= k < |chains| && chains[k].subnetId.None?
      ensures ChainTakersHaveConfig(chains[k], before, nodes, infos[k].subnet)
    {
      NewIdsDiffer(chains, plan, infos);
      PlannedFor(chains, e, ce, all, before, plan, infos, k);
      ChainTakersHave(chains[k], before, nodes, view(time), plan.subnetIds, plan.specs, MissingBefore(chains, k));
    }
    ChainPlaces(chains, e, ce, all, plan, infos);
  }

  lemma {:induction false} ChainPlaces(chains: seq<ChainSpec>, e: InstallEnv, ce: ChainEnv, all: seq<string>, plan: Plan, infos: seq<ChainInfo>)
    requires Planned(chains, e, ce, all, plan) && InfosOf(chains, plan, infos)
    ensures forall k :: 0 <= k < |chains| ==> infos[k].vmName == chains[k].vmName && ce.ids(k) == Some(infos[k].id)
    ensures forall k :: 0 <= k < |chains| && chains[k].subnetId.Some? ==> infos[k].subnet == chains[k].subnetId.value
  {
    hide MissingBefore, NewSubnets, SubnetFor;
  }

  lemma ChainTakersDo(c: ChainSpec, before: set<string>, nodes: map<string, Node>, v: View, subnet: string, names: seq<string>)
    requires Validating(nodes, v, subnet, names) && forall p :: p in names <==> TakesPartIn(c, before, p)
    ensures ChainTakersValidate(c, before, nodes, v, subnet)
  {
    hide InSubnet, TakesPartIn;
  }

  lemma ChainTakersHave(c: ChainSpec, before: set<string>, nodes: map<string, Node>, v: View, ids: seq<string>,
                        specs: seq<SubnetSpec>, i: nat)
    requires i < |ids| <= |specs| && AllDistinct(ids) && forall p :: p in specs[i].participants <==> TakesPartIn(c, before, p)
    requires specs[i].config == if c.subnetSpec.Some? then c.subnetSpec.value.config else None
    requires SubnetFilesIn(nodes, ids, specs) && Validating(nodes, v, ids[i], specs[i].participants)
    ensures ChainTakersHaveConfig(c, before, nodes, ids[i])
  {
    hide InSubnet, AllDistinct, HasFile, TakesPartIn;
    forall p | TakesPartIn(c, before, p) && specs[i].config.Some? ensures HasFile(nodes, p, (SubnetFile, ids[i]), specs[i].config.value) {
      assert p in specs[i].participants;
    }
  }

  /** The participants found for a blockchain in a new subnet are those who take part in it. */
  lemma {:induction false} NewPartsAre(chains: seq<ChainSpec>, e: InstallEnv, ce: ChainEnv, all: seq<string>, before: set<string>, plan: Plan,
                                       parts: seq<seq<string>>, nodes: map<string, Node>, view: nat -> View, infos: seq<ChainInfo>, k: nat, p: string)
    requires Planned(chains, e, ce, all, plan) && InfosOf(chains, plan, infos) && Elements(all) == before
    requires PartsFound(nodes, view, plan, parts) && NewSubnetsDiffer(chains, infos)
    requires k < |chains| == |parts| && chains[k].subnetId.None? && TakesPartIn(chains[k], before, p)
    ensures p in parts[k]
  {
    hide MissingBefore, TakesPartIn, AllDistinct, NewSubnetsDiffer, NewSubnets, SubnetFor, Needing, Behind;
    NewIdsDiffer(chains, plan, infos);
    PlannedFor(chains, e, ce, all, before, plan, infos, k);
    assert PartsOf(nodes, view, plan.subnetIds, plan.specs, infos[k].subnet, parts[k]);
  }

  /** Those found for a blockchain in an old subnet are the nodes behind its validators. */
  lemma {:induction false} OldPartsAre(chains: seq<ChainSpec>, plan: Plan, parts: seq<seq<string>>, nodes: map<string, Node>, view: nat -> View,
                                       infos: seq<ChainInfo>, k: nat) returns (t: nat)
    requires InfosOf(chains, plan, infos) && PartsFound(nodes, view, plan, parts)
    requires k < |chains| == |parts| && chains[k].subnetId.Some?
    requires forall l :: 0 <= l < |chains| && chains[l].subnetId.None? ==> infos[l].subnet != infos[k].subnet
    ensures forall p :: p in nodes && InSubnet(view(t), infos[k].subnet, nodes[p].id) ==> p in parts[k]
  {
    hide MissingBefore, InSubnet;
    forall j | 0 <= j < |plan.subnetIds| ensures plan.subnetIds[j] != infos[k].subnet {
      var l := ChainOf(chains, |chains|, j);
    }
    assert PartsOf(nodes, view, plan.subnetIds, plan.specs, infos[k].subnet, parts[k]);
    t :| Behind(nodes, view(t), infos[k].subnet, parts[k]);
  }

  lemma {:induction false} ChainFilesAreUp(chains: seq<ChainSpec>, e: InstallEnv, ce: ChainEnv, all: seq<string>, before: set<string>, plan: Plan,
                                           parts: seq<seq<string>>, nodes: map<string, Node>, view: nat -> View, infos: seq<ChainInfo>)
    requires Planned(chains, e, ce, all, plan) && InfosOf(chains, plan, infos) && Elements(all) == before
    requires PartsFound(nodes, view, plan, parts) && |parts| == |chains| == |plan.chainIds| == |plan.placed|
    requires ChainFilesIn(nodes, plan.placed, plan.chainIds, parts)
    ensures ChainFilesUp(chains, before, nodes, view, infos)
  {
    hide NewSubnetsDiffer, Planned, PartsFound, InSubnet, TakesPartIn, MissingBefore, ChainFilesOn, ChainFilesIn, InfosOf;
    InfosLength(chains, plan, infos);
    if NewSubnetsDiffer(chains, infos) && forall k, l :: 0 <= k < l < |chains| ==> infos[k].id != infos[l].id {
      forall k, p | 0 <= k < |chains| && p in parts[k] && p in nodes ensures ChainFilesOn(chains[k], infos[k].id, nodes, p) {
        IdsDiffer(chains, plan, infos);
        PartHasFiles(chains, plan, parts, nodes, infos, k, p);
      }
      forall k, p | 0 <= k < |chains| && chains[k].subnetId.None? && TakesPartIn(chains[k], before, p) && p in nodes
        ensures ChainFilesOn(chains[k], infos[k].id, nodes, p)
      {
        NewPartsAre(chains, e, ce, all, before, plan, parts, nodes, view, infos, k, p);
      }
      forall k | 0 <= k < |chains| && chains[k].subnetId.Some?
                 && (forall l :: 0 <= l < |chains| && chains[l].subnetId.None? ==> infos[l].subnet != infos[k].subnet)
        ensures exists t: nat :: ValidatorsHaveFiles(chains[k], infos[k], nodes, view(t))
      {
        var t := OldPartsAre(chains, plan, parts, nodes, view, infos, k);
        assert ValidatorsHaveFiles(chains[k], infos[k], nodes, view(t));
      }
    }
  }

  lemma {:induction false} PartHasFiles(chains: seq<ChainSpec>, plan: Plan, parts: seq<seq<string>>, nodes: map<string, Node>,
                                        infos: seq<ChainInfo>, k: nat, p: string)
    requires InfosOf(chains, plan, infos) && |parts| == |chains| && AllDistinct(plan.chainIds)
    requires ChainFilesIn(nodes, plan.placed, plan.chainIds, parts)
    requires k < |chains| && p in parts[k] && p in nodes
    ensures ChainFilesOn(chains[k], infos[k].id, nodes, p)
  {
    hide MissingBefore, AllDistinct, HasFile, HasConfigFile;
    SameConfig(chains[k], infos[k].subnet, infos[k].id, nodes, p);
  }

  lemma IdsDiffer(chains: seq<ChainSpec>, plan: Plan, infos: seq<ChainInfo>)
    requires InfosOf(chains, plan, infos) && forall k, l :: 0 <= k < l < |chains| ==> infos[k].id != infos[l].id
    ensures AllDistinct(plan.chainIds)
  {
    hide MissingBefore;
  }

  /** The config of a blockchain does not depend on its subnet. */
  lemma SameConfig(c: ChainSpec, subnet: string, id: string, nodes: map<string, Node>, p: string)
    ensures HasConfigFile(nodes, p, id, c.(subnetId := Some(subnet))) <==> HasConfigFile(nodes, p, id, c)
  {
  }

  lemma {:induction false} OnlyChainTakersAsked(chains: seq<ChainSpec>, e: InstallEnv, ce: ChainEnv, all: seq<string>, before: set<string>,
                                                plan: Plan, nodes: map<string, Node>, infos: seq<ChainInfo>,
                                                issued: seq<ValidatorTx>, issued': seq<ValidatorTx>)
    requires Planned(chains, e, ce, all, plan) && InfosOf(chains, plan, infos) && Elements(all) == before
    requires |plan.subnetIds| <= |plan.specs| && OnlyParticipants(nodes, plan.subnetIds, plan.specs, issued, issued')
    ensures OnlyChainTakers(chains, before, nodes, infos, issued, issued')
  {
    hide MissingBefore, TakesPartIn, Planned, Needing;
    forall n | |issued| <= n < |issued'| && issued'[n].AddToSubnet?
      ensures exists k, p :: 0 <= k < |chains| && chains[k].subnetId.None? && TakesPartIn(chains[k], before, p) && p in nodes
                             && issued'[n].subnet == infos[k].subnet && issued'[n].id == nodes[p].id
    {
      var i, p :| 0 <= i < |plan.subnetIds| && p in plan.specs[i].participants && p in nodes
                  && issued'[n].subnet == plan.subnetIds[i] && issued'[n].id == nodes[p].id;
      var k := ChainOf(chains, |chains|, i);
      PlannedFor(chains, e, ce, all, before, plan, infos, k);
      assert TakesPartIn(chains[k], before, p);
    }
  }

  lemma {:induction false} SomeSubnetIsNew(chains: seq<ChainSpec>, e: InstallEnv, ce: ChainEnv, all: seq<string>, plan: Plan)
    requires Planned(chains, e, ce, all, plan) && exists k :: 0 <= k < |chains| && chains[k].subnetId.None?
    ensures plan.subnetIds != []
  {
    hide MissingBefore, FillIn, SpecOf, SubnetFor;
    var k :| 0 <= k < |chains| && chains[k].subnetId.None?;
    MissingGrows(chains, k, |chains|);
  }

  lemma {:induction false} ChainListsAreSaid(chains: seq<ChainSpec>, e: InstallEnv, ce: ChainEnv, all: seq<string>, s: State, r: State, plan: Plan,
                                             infos: seq<ChainInfo>)
    requires WellFormed(s) && WellFormed(r) && Planned(chains, e, ce, all, plan) && InfosOf(chains, plan, infos) && Elements(all) == s.nodes.Keys
    requires |plan.subnetIds| <= |plan.specs| && ListsDone(s, r, plan.subnetIds, plan.specs)
    ensures ChainListsSay(chains, s, r, infos)
  {
    hide WellFormed, ListIn, NewFor, TrackedAfter, ChainListSaid, CommaFree, Planned, MissingBefore, InfosOf;
    assert |infos| == |chains| by { InfosLength(chains, plan, infos); }
    if forall k :: 0 <= k < |chains| && chains[k].subnetId.None? ==> ',' !in infos[k].subnet && infos[k].subnet != "" {
      forall n | n in r.nodes
        ensures ChainListSaid(chains, s.nodes.Keys, infos, n, ListIn(if n in s.nodes then FlagsOf(s, n) else s.netFlags), ListIn(FlagsOf(r, n)))
      {
        assert ListBefore(s, n) == ListIn(if n in s.nodes then FlagsOf(s, n) else s.netFlags);
        ListInStr(FlagsOf(r, n), TrackedAfter(ListBefore(s, n), NewFor(plan.subnetIds, plan.specs, n)));
        OneChainListSaid(chains, e, ce, all, s.nodes.Keys, plan, infos, n, ListBefore(s, n));
      }
    }
  }

  lemma InfosLength(chains: seq<ChainSpec>, plan: Plan, infos: seq<ChainInfo>)
    requires InfosOf(chains, plan, infos)
    ensures |infos| == |chains|
  {
  }

  lemma {:induction false} OneChainListSaid(chains: seq<ChainSpec>, e: InstallEnv, ce: ChainEnv, all: seq<string>, before: set<string>, plan: Plan,
                                            infos: seq<ChainInfo>, n: string, was: string)
    requires Planned(chains, e, ce, all, plan) && InfosOf(chains, plan, infos) && Elements(all) == before && |plan.subnetIds| <= |plan.specs|
    requires forall k :: 0 <= k < |chains| && chains[k].subnetId.None? ==> ',' !in infos[k].subnet && infos[k].subnet != ""
    ensures ChainListSaid(chains, before, infos, n, was, TrackedAfter(was, NewFor(plan.subnetIds, plan.specs, n)))
  {
    hide TrackedAfter, OnlyCommas, Tracks, StrictlySorted, TakesPartIn, MissingBefore, Planned, Needing;
    var ids, specs := plan.subnetIds, plan.specs;
    var added := NewFor(ids, specs, n);
    forall x ensures x in added <==> exists k :: 0 <= k < |chains| && chains[k].subnetId.None? && infos[k].subnet == x
                                                 && TakesPartIn(chains[k], before, n)
    {
      if x in added {
        var i :| 0 <= i < |ids| && n in specs[i].participants && ids[i] == x;
        var k := ChainOf(chains, |chains|, i);
        PlannedFor(chains, e, ce, all, before, plan, infos, k);
      }
      if k :| 0 <= k < |chains| && chains[k].subnetId.None? && infos[k].subnet == x && TakesPartIn(chains[k], before, n) {
        PlannedFor(chains, e, ce, all, before, plan, infos, k);
        assert ids[MissingBefore(chains, k)] in added;
      }
    }
    hide InfosOf, NewFor;
    TrackedAfterMeans(was, added);
    if k :| 0 <= k < |chains| && chains[k].subnetId.None? && TakesPartIn(chains[k], before, n) { assert infos[k].subnet in added; }
    if added != {} { var x :| x in added; }
  }

  /** Files and participants are the same after the restart. */
  lemma {:induction false} StillFound(before: map<string, Node>, nodes: map<string, Node>, view: nat -> View, plan: Plan, parts: seq<seq<string>>)
    requires PartsFound(before, view, plan, parts) && |plan.placed| == |plan.chainIds| && SameIds(before, nodes) && FilesStay(before, nodes)
    requires SubnetFilesIn(before, plan.subnetIds, plan.specs) && ChainFilesIn(before, plan.placed, plan.chainIds, parts)
    ensures PartsFound(nodes, view, plan, parts)
    ensures SubnetFilesIn(nodes, plan.subnetIds, plan.specs) && ChainFilesIn(nodes, plan.placed, plan.chainIds, parts)
  {
    hide SubnetFilesIn, ChainFilesIn, PartsOf, FilesStay;
    FilesRemain(before, nodes, plan.subnetIds, plan.specs, plan.placed, plan.chainIds, parts);
    forall k | 0 <= k < |parts|
      ensures PartsOf(nodes, view, plan.subnetIds, plan.specs, plan.placed[k].subnetId.value, parts[k])
    {
      PartsSameIds(before, nodes, view, plan.subnetIds, plan.specs, plan.placed[k].subnetId.value, parts[k]);
    }
  }

  /** The answer of installCustomChains. */
  method MakeInfos(placed: seq<ChainSpec>, ids: seq<string>) returns (infos: seq<ChainInfo>)
    requires |ids| == |placed| && forall k :: 0 <= k < |placed| ==> placed[k].subnetId.Some?
    ensures |infos| == |placed| && forall k :: 0 <= k < |placed| ==>
              infos[k] == ChainInfo(placed[k].vmName, placed[k].subnetId.value, ids[k])
  {
    infos := [];
    for i := 0 to |placed|
      invariant |infos| == i && forall k :: 0 <= k < i ==>
                  infos[k] == ChainInfo(placed[k].vmName, placed[k].subnetId.value, ids[k])
    {
      infos := infos + [ChainInfo(placed[i].vmName, placed[i].subnetId.value, ids[i])];
    }
  }

  lemma CollectedNamed(chains: seq<ChainSpec>, specs: seq<SubnetSpec>)
    requires |specs| == MissingBefore(chains, |chains|)
    requires forall k :: 0 <= k < |chains| && chains[k].subnetId.None? ==>
               MissingBefore(chains, k) < |specs| && specs[MissingBefore(chains, k)] == SpecOf(chains[k])
    requires AllNamed(chains)
    ensures Named(specs)
  {
    forall i | 0 <= i < |specs| ensures exists k :: 0 <= k < |chains| && chains[k].subnetId.None? && SpecOf(chains[k]) == specs[i] {
      var k := ChainOf(chains, |chains|, i);
      assert SpecOf(chains[k]) == specs[i];
    }
  }

  /** Every collected spec belongs to some blockchain. */
  lemma {:induction false} ChainOf(chains: seq<ChainSpec>, n: nat, i: nat) returns (k: nat)
    requires n <= |chains| && i < MissingBefore(chains, n)
    ensures k < n && chains[k].subnetId.None? && MissingBefore(chains, k) == i
  {
    if chains[n - 1].subnetId.None? && MissingBefore(chains, n - 1) == i {
      k := n - 1;
    } else {
      k := ChainOf(chains, n - 1, i);
    }
  }
}
