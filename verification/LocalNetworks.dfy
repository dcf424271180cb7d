/** The network as an object (local/network.go). Every method updates the fields in
    place and is proved to do what the state function of its name says; the results
    about runs are proved about those functions. */
module LocalNetworks {
  import opened Common
  import opened Paths
  import opened Flags
  import opened Network
  import opened Runs

  // ---------- stopping some of the nodes ----------

  ghost function Part(nodes: map<string, Node>, names: set<string>): map<string, Node> {
    map n | n in nodes && n in names :: nodes[n]
  }

  /** The network with some nodes removed by stop. */
  ghost function StopSome(s: State, done: set<string>, codes: nat -> int): State
    requires WellFormed(s)
  {
    s.(nodes := s.nodes - done,
       beacons := WithoutIds(s.beacons, Ids(Part(s.nodes, done))),
       procs := HaltAll(s.procs, LivePids(Part(s.nodes, done)), codes))
  }

  ghost predicate SomeOfThemFails(s: State, done: set<string>, codes: nat -> int)
    requires WellFormed(s)
  {
    exists n :: n in s.nodes && n in done && !s.nodes[n].paused
                && ExitCode(s.procs[s.nodes[n].pid], codes(s.nodes[n].pid)) != 0
  }

  lemma {:induction false} WithoutOneMore(beacons: seq<Beacon>, ids: set<string>, id: string)
    ensures WithoutId(WithoutIds(beacons, ids), id) == WithoutIds(beacons, ids + {id})
  {
    if beacons != [] {
      WithoutOneMore(beacons[1..], ids, id);
      if beacons[0].id !in ids {
        var rest := WithoutIds(beacons[1..], ids);
        assert ([beacons[0]] + rest)[1..] == rest;
      }
    }
  }

  lemma {:induction false} WithoutNone(beacons: seq<Beacon>)
    ensures WithoutIds(beacons, {}) == beacons
  {
    if beacons != [] { WithoutNone(beacons[1..]); }
  }

  lemma StopNone(s: State, codes: nat -> int)
    requires WellFormed(s)
    ensures StopSome(s, {}, codes) == s
  {
    WithoutNone(s.beacons);
    assert Part(s.nodes, {}) == map[];
    assert Ids(map[]) == {} && LivePids(map[]) == {};
    assert HaltAll(s.procs, {}, codes) == s.procs;
    assert s.nodes - {} == s.nodes;
  }

  lemma StopEvery(s: State, codes: nat -> int)
    requires WellFormed(s)
    ensures StopSome(s, s.nodes.Keys, codes) == StopAll(s, codes).s
    ensures SomeOfThemFails(s, s.nodes.Keys, codes) == SomeExitFails(s, codes)
  {
    assert Part(s.nodes, s.nodes.Keys) == s.nodes;
    assert s.nodes - s.nodes.Keys == map[];
  }

  lemma PartOneMore(nodes: map<string, Node>, done: set<string>, name: string)
    requires name in nodes
    ensures Ids(Part(nodes, done + {name})) == Ids(Part(nodes, done)) + {nodes[name].id}
    ensures LivePids(Part(nodes, done + {name}))
         == LivePids(Part(nodes, done)) + (if nodes[name].paused then {} else {nodes[name].pid})
  {
    var more, less := Part(nodes, done + {name}), Part(nodes, done);
    assert more == less[name := nodes[name]];
    forall n | n in less ensures n in more && more[n] == less[n] { }
    assert more[name] == nodes[name];
  }

  lemma HaltOneMore(procs: seq<Proc>, pids: set<nat>, pid: nat, codes: nat -> int)
    requires pid < |procs|
    ensures var halted := HaltAll(procs, pids, codes);
            halted[pid := Halt(halted[pid], codes(pid))] == HaltAll(procs, pids + {pid}, codes)
            && ExitCode(halted[pid], codes(pid)) == ExitCode(procs[pid], codes(pid))
  {
  }

  /** One more removal, whatever was removed before. */
  lemma StopOneMore(s: State, done: set<string>, name: string, codes: nat -> int)
    requires WellFormed(s) && name in s.nodes && name !in done
    ensures WellFormed(StopSome(s, done, codes)) && name in StopSome(s, done, codes).nodes
    ensures var r := RemoveNode(StopSome(s, done, codes), name, codes(s.nodes[name].pid));
            r.s == StopSome(s, done + {name}, codes)
            && (r.err.Some? <==> !s.nodes[name].paused
                                 && ExitCode(s.procs[s.nodes[name].pid], codes(s.nodes[name].pid)) != 0)
            && (r.err.Some? ==> r.err == Some(NonZeroExit))
  {
    hide HaltAll, WithoutIds, WithoutId, LivePids, Ids, Part, Halt, ExitCode;
    var s1 := StopSome(s, done, codes);
    var node := s.nodes[name];
    PartOneMore(s.nodes, done, name);
    WithoutOneMore(s.beacons, Ids(Part(s.nodes, done)), node.id);
    HaltOneMore(s.procs, LivePids(Part(s.nodes, done)), node.pid, codes);
    assert s1.nodes - {name} == s.nodes - (done + {name});
  }

  // ---------- the object ----------

  class LocalNetwork {
    const site: Site
    const rootDir: string
    var binaryPath: string
    var netFlags: FlagMap
    var files: ConfigFiles
    var nodes: map<string, Node>
    var beacons: seq<Beacon>
    var nextSuffix: nat
    var stopped: bool
    var procs: seq<Proc>
    var store: seq<FlagMap>

    ghost function Contents(): State
      reads this
    {
      State(site, rootDir, binaryPath, netFlags, files, nodes, beacons, nextSuffix, stopped, procs, store)
    }

    /** newNetwork. */
    constructor (site: Site, rootDir: string)
      ensures Contents() == NewNetwork(site, rootDir)
    {
      this.site, this.rootDir := site, rootDir;
      binaryPath, netFlags, files := "", map[], map[];
      nodes, beacons, nextSuffix, stopped, procs, store := map[], [], 1, false, [], [];
    }

    /** setNodeName: the search for a free generated name ends, however many names
        are in use. */
    method SetNodeName(given: string) returns (name: string, err: Option<Error>)
      modifies this`nextSuffix
      ensures given == "" ==> nextSuffix == LeastFree(nodes.Keys, old(nextSuffix)) && name == NodeName(nextSuffix)
      ensures given != "" ==> nextSuffix == old(nextSuffix) && name == given
      ensures err == if name in nodes && !nodes[name].paused then Some(RepeatedNodeName) else None
    {
      name := given;
      if |name| == 0 {
        name := NodeName(nextSuffix);
        while name in nodes
          invariant name == NodeName(nextSuffix)
          invariant LeastFree(nodes.Keys, nextSuffix) == LeastFree(nodes.Keys, old(nextSuffix))
          decreases UsedFrom(nodes.Keys, nextSuffix)
        {
          UsedShrinks(nodes.Keys, nextSuffix);
          nextSuffix := nextSuffix + 1;
          name := NodeName(nextSuffix);
        }
      }
      if name in nodes && !nodes[name].paused {
        return name, Some(RepeatedNodeName);
      }
      err := None;
    }

    /** The network's config files below the node's own, in any order. */
    method MergeFiles(own: ConfigFiles) returns (merged: ConfigFiles)
      ensures merged == files + own
    {
      merged := own;
      var rest := files.Keys;
      while rest != {}
        invariant rest <= files.Keys
        invariant merged == (map k | k in files && k !in rest :: files[k]) + own
        decreases rest
      {
        var k :| k in rest;
        if k !in merged {
          merged := merged[k := files[k]];
        }
        rest := rest - {k};
      }
    }

    /** The first part of addNode: nil maps are replaced and defaults filled in. */
    method FillDefaults(given: NodeConfig) returns (c: NodeConfig)
      requires Allocated(Contents(), given)
      modifies this`store
      ensures c == WithDefaults(old(Contents()), given) && store == StoreWithDefaults(old(Contents()), given)
    {
      c := given;
      if c.flags.None? {
        store := store + [map[]];
        c := c.(flags := Some(|store| - 1));
      }
      if c.binaryPath == "" {
        c := c.(binaryPath := binaryPath);
      }
      var merged := MergeFiles(c.files);
      c := c.(files := merged);
      var flags := AddNetworkFlags(netFlags, store[c.flags.value]);
      store := store[c.flags.value := flags];
      assert netFlags + map[] == netFlags;
    }

    /** addNode up to the checks of Resolve. */
    method PrepareNode(given: NodeConfig, e: AddEnv) returns (c: NodeConfig, err: Option<Error>)
      requires Allocated(Contents(), given)
      modifies this
      ensures Contents() == Prepare(old(Contents()), given, e).s
      ensures err.Some? ==> Prepare(old(Contents()), given, e).ready == Err(err.value)
      ensures err.None? ==> c.flags.Some? && c.flags.value < |store|
                            && Prepare(old(Contents()), given, e).ready == Resolve(Contents(), c, e)
    {
      hide Resolve, StoreWithDefaults;
      err := None;
      c := FillDefaults(given);
      if c.cert == "" {
        if e.newCert == "" { return c, Some(KeyGenerationFailed); }
        c := c.(cert := e.newCert);
      }
      if !e.signingKeyOk { return c, Some(KeyGenerationFailed); }
      var name;
      name, err := SetNodeName(c.name);
      c := c.(name := name);
    }

    /** addNode. */
    method AddNodeLocked(given: NodeConfig, e: AddEnv) returns (err: Option<Error>)
      requires Allocated(Contents(), given)
      modifies this
      ensures Contents() == Network.AddNode(old(Contents()), given, e).s && err == Network.AddNode(old(Contents()), given, e).err
    {
      hide Prepare, BuildArgs;
      var c;
      c, err := PrepareNode(given, e);
      if err.Some? { return; }
      var wasPaused := c.name in nodes && nodes[c.name].paused;
      if !e.dirOk { return Some(DirectoryFailed); }
      if c.configFile.Some? && !e.configParses { return Some(BadConfigFile); }
      if !e.versionKnown { return Some(VersionUnknown); }
      var built := ComputeArgs(site, beacons, store[c.flags.value], c.configFile, JoinPath(rootDir, c.name), e.args);
      if built.Err? { return Some(built.error); }
      var r := built.value;
      var id := site.idOf(c.cert);
      if id.None? { return Some(BadIdentity); }
      if !e.launches { return Some(LaunchFailed); }
      var pid := |procs|;
      procs := procs + [Proc(c.name, id.value, r.args, None)];
      nodes := nodes[c.name := Node(c, id.value, pid, r.apiPort, r.p2pPort, r.dataDir, r.dbDir, r.logsDir,
                                    r.pluginDir, r.httpHost, false)];
      if !wasPaused && c.isBeacon {
        var b := Beacon(id.value, r.p2pPort);
        if Clashes(beacons, b) { return Some(DuplicateBeacon); }
        beacons := beacons + [b];
      }
      return None;
    }

    /** nodeProcess.Stop as the network sees it: the process has stopped when it returns. */
    method StopProcess(pid: nat, code: int) returns (exit: int)
      requires pid < |procs|
      modifies this`procs
      ensures procs == old(procs)[pid := Halt(old(procs)[pid], code)] && exit == ExitCode(old(procs)[pid], code)
    {
      if procs[pid].exit.None? {
        procs := procs[pid := procs[pid].(exit := Some(code))];
      }
      exit := procs[pid].exit.value;
      assert procs == old(procs)[pid := Halt(old(procs)[pid], code)];
    }

    /** removeNode. */
    method RemoveNodeLocked(name: string, code: int) returns (err: Option<Error>)
      requires WellFormed(Contents())
      modifies this
      ensures Contents() == Network.RemoveNode(old(Contents()), name, code).s && err == Network.RemoveNode(old(Contents()), name, code).err
    {
      if name !in nodes { return Some(NodeNotFound); }
      var node := nodes[name];
      beacons := WithoutId(beacons, node.id);
      nodes := nodes - {name};
      if !node.paused {
        var exit := StopProcess(node.pid, code);
        if exit != 0 { return Some(NonZeroExit); }
      }
      return None;
    }

    /** pauseNode. */
    method PauseNodeLocked(name: string, code: int) returns (err: Option<Error>)
      requires WellFormed(Contents())
      modifies this
      ensures Contents() == Network.PauseNode(old(Contents()), name, code).s && err == Network.PauseNode(old(Contents()), name, code).err
    {
      if name !in nodes { return Some(NodeNotFound); }
      var node := nodes[name];
      if node.paused { return Some(AlreadyPaused); }
      var exit := StopProcess(node.pid, code);
      if exit != 0 { return Some(NonZeroExit); }
      nodes := nodes[name := node.(paused := true)];
      return None;
    }

    /** resumeNode: the recorded place is written into the node's flags first. */
    method ResumeNode(name: string, e: AddEnv) returns (err: Option<Error>)
      requires WellFormed(Contents())
      modifies this
      ensures Contents() == Network.ResumeNode(old(Contents()), name, e).s
      ensures err == Network.ResumeNode(old(Contents()), name, e).err
    {
      hide Network.AddNode;
      if name !in nodes { return Some(NodeNotFound); }
      var node := nodes[name];
      if !node.paused { return Some(NotPaused); }
      var a := node.cfg.flags.value;
      WritePlace(a, node);
      err := AddNodeLocked(node.cfg, e);
    }

    /** The recorded directories and ports go into the flags at address a. */
    method WritePlace(a: nat, node: Node)
      requires a < |store|
      modifies this`store
      ensures store == old(store)[a := PinnedFor(old(store)[a], node)]
    {
      store := store[a := store[a][DataDir := Str(node.dataDir)]];
      store := store[a := store[a][DbDir := Str(node.dbDir)]];
      store := store[a := store[a][LogDir := Str(node.logsDir)]];
      store := store[a := store[a][HttpPort := Int(node.apiPort)]];
      store := store[a := store[a][StakingPort := Int(node.p2pPort)]];
    }

    /** restartNode. */
    method RestartNode(name: string, o: Overrides, code: int, e: AddEnv) returns (err: Option<Error>)
      requires WellFormed(Contents())
      modifies this
      ensures Contents() == Network.RestartNode(old(Contents()), name, o, code, e).s
      ensures err == Network.RestartNode(old(Contents()), name, o, code, e).err
    {
      hide Network.AddNode, Network.RemoveNode, Overridden;
      if name !in nodes { return Some(NodeNotFound); }
      OverriddenKeepsShape(Contents(), name, o);
      Override(name, o);
      var node := nodes[name];
      var c := node.cfg;
      if o.binaryPath != "" {
        c := c.(binaryPath := o.binaryPath);
      }
      if !node.paused {
        RemoveKeepsStore(Contents(), name, code);
        err := RemoveNodeLocked(name, code);
        if err.Some? { return; }
      }
      err := AddNodeLocked(c, e);
    }

    /** The overrides of a restart are written into the node's own maps. */
    method Override(name: string, o: Overrides)
      requires WellFormed(Contents()) && name in nodes
      modifies this`store, this`nodes
      ensures Contents() == Overridden(old(Contents()), name, o)
    {
      hide PinnedFor;
      var node := nodes[name];
      var a := node.cfg.flags.value;
      if o.pluginDir != "" {
        store := store[a := store[a][PluginDir := Str(o.pluginDir)]];
      }
      if o.trackSubnets != "" {
        store := store[a := store[a][TrackSubnets := Str(o.trackSubnets)]];
      }
      assert store == old(store)[a := OverriddenFlags(old(store)[a], o)];
      WritePlace(a, node);
      nodes := nodes[name := node.(cfg := node.cfg.(files := node.cfg.files + o.files))];
    }

    /** stop: the nodes are removed one by one, in whatever order the map yields them,
        and the first failure is reported. */
    method StopNodes(codes: nat -> int) returns (err: Option<Error>)
      requires WellFormed(Contents())
      modifies this
      ensures Contents() == StopAll(old(Contents()), codes).s && err == StopAll(old(Contents()), codes).err
    {
      hide StopSome, StopAll, Network.RemoveNode, WellFormed;
      ghost var s := Contents();
      ghost var done: set<string> := {};
      var rest := nodes.Keys;
      err := None;
      StopNone(s, codes);
      while rest != {}
        invariant rest <= s.nodes.Keys && done == s.nodes.Keys - rest
        invariant WellFormed(s) && Contents() == StopSome(s, done, codes)
        invariant err.Some? <==> SomeOfThemFails(s, done, codes)
        invariant err.Some? ==> err == Some(NonZeroExit)
        decreases rest
      {
        var name :| name in rest;
        StopOneMore(s, done, name, codes);
        StoppedNodesSame(s, done, name, codes);
        var failure := RemoveNodeLocked(name, codes(nodes[name].pid));
        FailsOneMore(s, done, name, codes);
        if failure.Some? && err.None? {
          err := failure;
        }
        done, rest := done + {name}, rest - {name};
      }
      assert done == s.nodes.Keys;
      StopEvery(s, codes);
      StopAllError(s, codes);
    }

    /** Stop: the latch is closed first, the rest runs under the lock. A second call
        does nothing. */
    method Stop(codes: nat -> int) returns (err: Option<Error>)
      requires WellFormed(Contents())
      modifies this
      ensures old(stopped) ==> Contents() == old(Contents()) && err == Some(NetworkStopped)
      ensures !old(stopped) ==>
                var s := Do(old(Contents()), CloseStop);
                Contents() == Do(s, StopLocked(codes)) && err == StopAll(s, codes).err
    {
      if stopped { return Some(NetworkStopped); }
      stopped := true;
      assert Contents() == Do(old(Contents()), CloseStop);
      err := StopNodes(codes);
    }

    /** AddNode, RemoveNode and PauseNode refuse to work on a stopped network. */
    method AddNode(given: NodeConfig, e: AddEnv) returns (err: Option<Error>)
      requires WellFormed(Contents()) && Allocated(Contents(), given)
      modifies this
      ensures Contents() == Do(old(Contents()), Add(given, e))
      ensures err == if old(stopped) then Some(NetworkStopped) else Network.AddNode(old(Contents()), given, e).err
    {
      hide Network.AddNode;
      if stopped { return Some(NetworkStopped); }
      err := AddNodeLocked(given, e);
    }

    method RemoveNode(name: string, code: int) returns (err: Option<Error>)
      requires WellFormed(Contents())
      modifies this
      ensures Contents() == Do(old(Contents()), Remove(name, code))
      ensures err == if old(stopped) then Some(NetworkStopped) else Network.RemoveNode(old(Contents()), name, code).err
    {
      hide Network.RemoveNode;
      if stopped { return Some(NetworkStopped); }
      err := RemoveNodeLocked(name, code);
    }

    method PauseNode(name: string, code: int) returns (err: Option<Error>)
      requires WellFormed(Contents())
      modifies this
      ensures Contents() == Do(old(Contents()), Pause(name, code))
      ensures err == if old(stopped) then Some(NetworkStopped) else Network.PauseNode(old(Contents()), name, code).err
    {
      hide Network.PauseNode;
      if stopped { return Some(NetworkStopped); }
      err := PauseNodeLocked(name, code);
    }

    /** The two passes that put the beacons first. */
    method OrderNodes(given: seq<NodeConfig>) returns (order: seq<NodeConfig>)
      ensures order == StartOrder(given)
    {
      order := [];
      for i := 0 to |given|
        invariant order + Pick(given[i..], true) == Pick(given, true)
      {
        assert given[i..][1..] == given[i + 1..];
        if given[i].isBeacon {
          order := order + [given[i]];
        }
      }
      assert order == Pick(given, true);
      for i := 0 to |given|
        invariant order + Pick(given[i..], false) == Pick(given, true) + Pick(given, false)
      {
        assert given[i..][1..] == given[i + 1..];
        if !given[i].isBeacon {
          order := order + [given[i]];
        }
      }
    }

    /** loadConfig. */
    method LoadConfig(conf: NetConfig, envs: nat -> AddEnv, codes: nat -> int) returns (err: Option<Error>)
      requires WellFormed(Contents()) && AllAllocated(Contents(), conf.nodes)
      modifies this
      ensures Contents() == Network.LoadConfig(old(Contents()), conf, envs, codes).s
      ensures err == Network.LoadConfig(old(Contents()), conf, envs, codes).err
    {
      hide Network.AddNode, StopAll, ValidConfig, StartOrder;
      if !ValidConfig(site, conf) { return Some(InvalidConfig); }
      StartOrderAllocated(Contents(), conf.nodes);
      netFlags, binaryPath, files := conf.flags, conf.binaryPath, conf.files;
      ghost var s := Contents();
      assert s == WithNetDefaults(old(Contents()), conf);
      var order := OrderNodes(conf.nodes);
      for i := 0 to |order|
        invariant Contents() == AddAll(s, order[..i], envs).s && AddAll(s, order[..i], envs).err.None?
      {
        assert order[..i + 1][..i] == order[..i];
        err := AddNodeLocked(order[i], envs(i));
        if err.Some? {
          AddAllStuck(s, order, i + 1, envs);
          var ignored := StopNodes(codes);
          return;
        }
      }
      assert order[..|order|] == order;
      return None;
    }
  }

  /** A list whose first part fails fails in the same way. */
  lemma {:induction false} AddAllStuck(s: State, cs: seq<NodeConfig>, k: nat, envs: nat -> AddEnv)
    requires AllAllocated(s, cs) && k <= |cs| && AddAll(s, cs[..k], envs).err.Some?
    ensures AddAll(s, cs, envs) == AddAll(s, cs[..k], envs)
    decreases |cs|
  {
    hide Network.AddNode;
    if k == |cs| {
      assert cs[..k] == cs;
    } else {
      var m := |cs| - 1;
      assert cs[..m][..k] == cs[..k];
      AddAllStuck(s, cs[..m], k, envs);
    }
  }

  lemma OverriddenKeepsShape(s: State, name: string, o: Overrides)
    requires WellFormed(s) && name in s.nodes
    ensures WellFormed(Overridden(s, name, o)) && name in Overridden(s, name, o).nodes
  {
  }

  lemma StoppedNodesSame(s: State, done: set<string>, name: string, codes: nat -> int)
    requires WellFormed(s) && name in s.nodes && name !in done
    ensures name in StopSome(s, done, codes).nodes && StopSome(s, done, codes).nodes[name] == s.nodes[name]
  {
  }

  lemma FailsOneMore(s: State, done: set<string>, name: string, codes: nat -> int)
    requires WellFormed(s) && name in s.nodes
    ensures SomeOfThemFails(s, done + {name}, codes)
            <==> SomeOfThemFails(s, done, codes)
                 || (!s.nodes[name].paused && ExitCode(s.procs[s.nodes[name].pid], codes(s.nodes[name].pid)) != 0)
  {
  }

  lemma StopAllError(s: State, codes: nat -> int)
    requires WellFormed(s)
    ensures StopAll(s, codes).err == if SomeExitFails(s, codes) then Some(NonZeroExit) else None
  {
  }
}
