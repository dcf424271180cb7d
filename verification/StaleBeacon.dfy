/** A run after which the beacon set does not agree with the nodes: a paused beacon is
    replaced by a node of another identity (local/network.go:637-646). */
module StaleBeacon {
  import opened Common
  import opened Flags
  import opened Network
  import opened Runs
  import opened BeaconSet
  import opened Snapshot

  /** The flags of both nodes. */
  const PORTS: FlagMap := map[HttpPort := Float(9650.0), StakingPort := Float(9651.0)]

  /** A beacon called a, with the flags at an address. */
  function BeaconConfig(cert: string, address: nat): NodeConfig {
    NodeConfig("a", true, cert, "", None, Some(address), map[])
  }

  function OneBeacon(cert: string): NetConfig {
    NetConfig(true, [BeaconConfig(cert, 0)], map[], "", map[])
  }

  /** The entry such a beacon gets, as far as it is decided by its configuration. */
  ghost function Entry(id: string): map<string, Node> {
    map["a" := Node(BeaconConfig("", 0), id, 0, 9650, 9651, "", "", "", "", "", false)]
  }

  lemma RunStep(s: State, op: Op, rest: seq<Op>)
    requires Inv(s) && Legal(s, op) && Inv(Do(s, op)) && Possible(Do(s, op), rest)
    ensures Possible(s, [op] + rest) && Run(s, [op] + rest) == Run(Do(s, op), rest)
  {
    hide Do, Owned;
    assert ([op] + rest)[1..] == rest;
  }

  lemma ConfigFits(s: State, cert: string, address: nat, id: string)
    requires address < |s.store| && s.store[address] == PORTS && cert != "" && s.site.idOf(cert) == Some(id)
    ensures Fits(s, BeaconConfig(cert, address), Entry(id))
    ensures s.netFlags == map[] ==> Typed(s.netFlags + s.store[address], None)
  {
    assert 9650.0 == (9650 as real) && 9651.0 == (9651 as real);
    assert map[] + PORTS == PORTS;
  }

  /** The network with the beacon in it. */
  ghost predicate Loaded(s: State, id: string) {
    && Inv(s) && s.nodes.Keys == {"a"} && s.nodes["a"].id == id && s.nodes["a"].p2pPort == 9651 && s.nodes["a"].cfg.isBeacon
    && s.beacons == [Beacon(id, 9651)] && s.netFlags == map[] && !s.stopped
  }

  lemma LoadBeacon(s: State, cert: string, id: string, envs: nat -> AddEnv, codes: nat -> int)
    requires Inv(s) && s.nodes == map[] && s.beacons == [] && s.procs == [] && s.store == [PORTS] && !s.stopped
    requires !s.site.reassign && cert != "" && s.site.idOf(cert) == Some(id) && Favorable(envs(0))
    ensures AllAllocated(s, OneBeacon(cert).nodes)
    ensures var r := LoadConfig(s, OneBeacon(cert), envs, codes).s;
            Loaded(r, id) && !r.nodes["a"].paused && r.procs[r.nodes["a"].pid].exit.None? && r.site == s.site
  {
    hide AddNode, Fits, Favorable, Typed, Owned, BuildArgs;
    var conf, c := OneBeacon(cert), BeaconConfig(cert, 0);
    LoadKeepsInv(s, conf, envs, codes);
    assert conf.nodes[0].isBeacon;
    assert ValidConfig(s.site, conf);
    assert conf.nodes == [c] && [c][..0] == [];
    OrderOfOne(c);
    StartOrderAllocated(s, conf.nodes);
    var s1 := WithNetDefaults(s, conf);
    ConfigFits(s1, cert, 0, id);
    AddSucceeds(s1, c, envs(0), Entry(id));
    AddRestores(s1, c, envs(0), Entry(id));
    assert AddAll(s1, [], envs) == Outcome(s1, None);
    assert AddAll(s1, [c], envs) == AddNode(s1, c, envs(0));
    AddedBeacon(s1, c, envs(0), id);
  }

  lemma OrderOfOne(c: NodeConfig)
    requires c.isBeacon
    ensures StartOrder([c]) == [c]
  {
    assert [c][1..] == [];
    assert Pick([c], true) == [c] + Pick([], true) && Pick([c], false) == Pick([], false);
  }

  lemma PauseBeacon(s: State, id: string)
    requires Loaded(s, id) && !s.nodes["a"].paused && s.procs[s.nodes["a"].pid].exit.None?
    ensures var r := Do(s, Pause("a", 0)); Loaded(r, id) && r.nodes["a"].paused && r.site == s.site
  {
    hide Owned;
    PauseKeepsInv(s, "a", 0);
  }

  lemma NewPorts(s: State)
    requires Inv(s)
    ensures var r := Do(s, NewFlags(PORTS)); Inv(r) && r == s.(store := s.store + [PORTS])
  {
    hide Owned;
    OpKeepsInv(s, NewFlags(PORTS));
  }

  /** A beacon that was added is in the beacon set. */
  lemma AddedBeacon(s: State, c: NodeConfig, e: AddEnv, id: string)
    requires Fits(s, c, Entry(id)) && c == BeaconConfig(c.cert, 0) && s.nodes == map[] && s.beacons == [] && s.procs == []
    requires AddNode(s, c, e).err.None? && Restored(s, AddNode(s, c, e).s, c, Entry(id)) && !s.stopped
    ensures var r := AddNode(s, c, e).s;
            && r.nodes.Keys == {"a"} && r.nodes["a"].cfg.isBeacon && !r.nodes["a"].paused && r.beacons == [Beacon(id, 9651)]
            && |r.procs| == 1 && r.nodes["a"].pid == 0 && r.procs[0].exit.None? && !r.stopped
  {
    hide Prepare, BuildArgs, Clashes, Typed;
    PrepareFacts(s, c, e);
  }

  /** Over the paused beacon a node of another identity is entered, and the set is stale. */
  lemma ReplaceBeacon(s: State, cert: string, id: string, other: string, e: AddEnv)
    requires Loaded(s, id) && s.nodes["a"].paused && other != id && !s.site.reassign
    requires |s.store| > 0 && s.store[|s.store| - 1] == PORTS && cert != "" && s.site.idOf(cert) == Some(other) && Favorable(e)
    ensures !Agrees(AddNode(s, BeaconConfig(cert, |s.store| - 1), e).s)
  {
    hide Prepare, BuildArgs, Fits, Typed, Favorable, Owned, Install;
    var c := BeaconConfig(cert, |s.store| - 1);
    ConfigFits(s, cert, |s.store| - 1, other);
    PrepareSucceeds(s, c, e, Entry(other));
    PrepareFacts(s, c, e);
    var p := Prepare(s, c, e);
    assert Agrees(p.s) && Distinct(p.s.nodes) by {
      assert forall n :: n in p.s.nodes <==> n in p.s.nodes.Keys;
      assert PairOf(p.s.nodes["a"]) == Beacon(id, 9651);
      assert BeaconPairs(p.s.nodes) == {Beacon(id, 9651)};
    }
    InstallOverPausedAgreesIff(p.s, p.ready.value);
  }

  /** Adding over the paused beacon, as a run. */
  lemma {:induction false} AddOver(s: State, cert: string, id: string, other: string, e: AddEnv) returns (ops: seq<Op>)
    requires Loaded(s, id) && s.nodes["a"].paused && other != id && !s.site.reassign
    requires cert != "" && s.site.idOf(cert) == Some(other) && Favorable(e)
    ensures Possible(s, ops) && !Agrees(Run(s, ops))
  {
    hide Do, AddNode, Agrees, Favorable, Owned, BeaconConfig, Possible, Run;
    NewPorts(s);
    var s1 := Do(s, NewFlags(PORTS));
    var address := |s1.store| - 1;
    var c := BeaconConfig(cert, address);
    AddressOf(cert, address);
    ReplaceBeacon(s1, cert, id, other, e);
    OpKeepsInv(s1, Add(c, e));
    AddIsAdd(s1, c, e);
    EmptyRun(Do(s1, Add(c, e)));
    RunStep(s1, Add(c, e), []);
    ops := [NewFlags(PORTS)] + ([Add(c, e)] + []);
    RunStep(s, NewFlags(PORTS), [Add(c, e)] + []);
  }

  /** The beacon is paused first. */
  lemma {:induction false} PauseAndAddOver(s: State, cert: string, id: string, other: string, e: AddEnv) returns (ops: seq<Op>)
    requires Loaded(s, id) && !s.nodes["a"].paused && s.procs[s.nodes["a"].pid].exit.None?
    requires other != id && !s.site.reassign && cert != "" && s.site.idOf(cert) == Some(other) && Favorable(e)
    ensures Possible(s, ops) && !Agrees(Run(s, ops))
  {
    hide Do, Agrees, Favorable, Owned, Possible, Run;
    PauseBeacon(s, id);
    var rest := AddOver(Do(s, Pause("a", 0)), cert, id, other, e);
    RunStep(s, Pause("a", 0), rest);
    ops := [Pause("a", 0)] + rest;
  }

  /** The beacon is loaded first. */
  lemma {:induction false} LoadAndReplace(s: State, cert1: string, id1: string, cert2: string, id2: string,
                                          envs: nat -> AddEnv, codes: nat -> int, e: AddEnv)
    returns (ops: seq<Op>)
    requires Inv(s) && s.nodes == map[] && s.beacons == [] && s.procs == [] && s.store == [PORTS] && !s.stopped
    requires !s.site.reassign && cert1 != "" && cert2 != "" && s.site.idOf(cert1) == Some(id1) && s.site.idOf(cert2) == Some(id2)
    requires id1 != id2 && Favorable(envs(0)) && Favorable(e)
    ensures Possible(s, ops) && !Agrees(Run(s, ops))
  {
    hide Do, LoadConfig, Agrees, Favorable, Owned, Possible, Run, OneBeacon;
    LoadBeacon(s, cert1, id1, envs, codes);
    var load := Load(OneBeacon(cert1), envs, codes);
    LoadIsLoad(s, load);
    var rest := PauseAndAddOver(Do(s, load), cert2, id1, id2, e);
    RunStep(s, load, rest);
    ops := [load] + rest;
  }

  /** Load one beacon, pause it, add a beacon of another identity under its name: this run is
      possible wherever the ports are free, and the beacon set ends up wrong. */
  lemma {:induction false} StaleBeaconRun(site: Site, rootDir: string, cert1: string, id1: string, cert2: string, id2: string,
                                          envs: nat -> AddEnv, codes: nat -> int, e: AddEnv)
    returns (ops: seq<Op>)
    requires !site.reassign && cert1 != "" && cert2 != "" && site.idOf(cert1) == Some(id1) && site.idOf(cert2) == Some(id2)
    requires id1 != id2 && Favorable(envs(0)) && Favorable(e)
    ensures Possible(NewNetwork(site, rootDir), ops) && !Agrees(Run(NewNetwork(site, rootDir), ops))
  {
    var s0 := NewNetwork(site, rootDir);
    assert Inv(s0);
    hide Do, Agrees, Favorable, Owned, Possible, Run;
    NewPorts(s0);
    assert s0.store + [PORTS] == [PORTS];
    var rest := LoadAndReplace(Do(s0, NewFlags(PORTS)), cert1, id1, cert2, id2, envs, codes, e);
    RunStep(s0, NewFlags(PORTS), rest);
    ops := [NewFlags(PORTS)] + rest;
  }

  lemma LoadIsLoad(s: State, op: Op)
    requires WellFormed(s) && op.Load? && Legal(s, op)
    ensures Do(s, op) == LoadConfig(s, op.conf, op.envs, op.codes).s
  {
    hide LoadConfig;
  }

  lemma AddressOf(cert: string, address: nat)
    ensures BeaconConfig(cert, address).flags == Some(address)
  {
  }

  lemma AddIsAdd(s: State, c: NodeConfig, e: AddEnv)
    requires WellFormed(s) && Allocated(s, c) && !s.stopped
    ensures Do(s, Add(c, e)) == AddNode(s, c, e).s
  {
    hide AddNode;
  }

  lemma EmptyRun(s: State)
    requires Inv(s)
    ensures Possible(s, []) && Run(s, []) == s
  {
  }
}
