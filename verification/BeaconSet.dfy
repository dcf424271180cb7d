/** The beacon set agrees with the nodes that are marked as beacons. */
module BeaconSet {
  import opened Common
  import opened Strings
  import opened Flags
  import opened Network
  import opened Runs

  function PairOf(n: Node): Beacon {
    Beacon(n.id, n.p2pPort)
  }

  /** The (ID, port) pairs of the beacon nodes, paused ones included. */
  ghost function BeaconPairs(nodes: map<string, Node>): set<Beacon> {
    set n | n in nodes && nodes[n].cfg.isBeacon :: PairOf(nodes[n])
  }

  ghost predicate Agrees(s: State) {
    forall b :: b in s.beacons <==> b in BeaconPairs(s.nodes)
  }

  /** No two nodes have the same ID or the same port. */
  ghost predicate Distinct(nodes: map<string, Node>) {
    forall m, n :: m in nodes && n in nodes && (nodes[m].id == nodes[n].id || nodes[m].p2pPort == nodes[n].p2pPort)
                   ==> m == n
  }

  /** A node has a name, and its ID is the one its certificate stands for. */
  ghost predicate Identified(s: State) {
    forall n :: n in s.nodes ==>
      n != "" && s.nodes[n].cfg.name == n && s.nodes[n].cfg.cert != "" && s.site.idOf(s.nodes[n].cfg.cert) == Some(s.nodes[n].id)
  }

  // ---------- one entry ----------

  lemma {:induction false} WithoutIdMembers(beacons: seq<Beacon>, id: string)
    ensures forall b :: b in WithoutId(beacons, id) <==> b in beacons && b.id != id
  {
    if beacons != [] {
      WithoutIdMembers(beacons[1..], id);
      assert beacons == [beacons[0]] + beacons[1..];
    }
  }

  lemma {:induction false} WithoutIdsMembers(beacons: seq<Beacon>, ids: set<string>)
    ensures forall b :: b in WithoutIds(beacons, ids) <==> b in beacons && b.id !in ids
  {
    if beacons != [] {
      WithoutIdsMembers(beacons[1..], ids);
      assert beacons == [beacons[0]] + beacons[1..];
    }
  }

  lemma RemoveAgrees(s: State, name: string, code: int)
    requires WellFormed(s) && Agrees(s) && Distinct(s.nodes)
    ensures Agrees(RemoveNode(s, name, code).s)
  {
    if name in s.nodes {
      var node, others := s.nodes[name], s.nodes - {name};
      WithoutIdMembers(s.beacons, node.id);
      PairsAfterNew(others, name, node);
      assert others[name := node] == s.nodes;
      forall b | b in BeaconPairs(others) ensures b.id != node.id {
        var n :| n in others && others[n].cfg.isBeacon && PairOf(others[n]) == b;
        assert n in s.nodes && s.nodes[n] == others[n];
      }
    }
  }

  /** What an entry under a new name does to the pairs. */
  lemma PairsAfterNew(nodes: map<string, Node>, name: string, node: Node)
    requires name !in nodes
    ensures BeaconPairs(nodes[name := node]) == BeaconPairs(nodes) + (if node.cfg.isBeacon then {PairOf(node)} else {})
  {
    var nodes' := nodes[name := node];
    forall b ensures b in BeaconPairs(nodes') <==> b in BeaconPairs(nodes) || (node.cfg.isBeacon && b == PairOf(node)) {
      if b in BeaconPairs(nodes) {
        var n :| n in nodes && nodes[n].cfg.isBeacon && PairOf(nodes[n]) == b;
        assert n in nodes' && nodes'[n] == nodes[n];
      }
      if node.cfg.isBeacon && b == PairOf(node) {
        assert name in nodes' && nodes'[name] == node;
      }
    }
  }

  /** Under an unused name, the beacon set keeps agreeing exactly when the node is no
      beacon, or its ID and port clash with no beacon, or it repeats both of one. */
  lemma InstallNewAgreesIff(s: State, x: Ready)
    requires Agrees(s) && x.cfg.name !in s.nodes
    ensures Agrees(Install(s, x).s)
            <==> (x.cfg.isBeacon && Clashes(s.beacons, Beacon(x.id, x.r.p2pPort)) ==> Beacon(x.id, x.r.p2pPort) in s.beacons)
  {
    var s' := Install(s, x).s;
    var b := Beacon(x.id, x.r.p2pPort);
    PairsAfterNew(s.nodes, x.cfg.name, s'.nodes[x.cfg.name]);
    assert PairOf(s'.nodes[x.cfg.name]) == b;
    assert b in s.beacons <==> b in BeaconPairs(s.nodes);
    if x.cfg.isBeacon {
      if !Clashes(s.beacons, b) {
        assert s'.beacons == s.beacons + [b];
      } else {
        assert s'.beacons == s.beacons;
      }
    } else {
      assert s'.beacons == s.beacons;
    }
  }

  /** Over a paused name the beacon set is left alone, so it keeps agreeing exactly
      when the new entry's pair is there already if it is a beacon, and the old
      entry's pair is still wanted if that was one. */
  lemma InstallOverPausedAgreesIff(s: State, x: Ready)
    requires Agrees(s) && Distinct(s.nodes) && x.cfg.name in s.nodes && s.nodes[x.cfg.name].paused
    ensures var was, b := s.nodes[x.cfg.name], Beacon(x.id, x.r.p2pPort);
            Agrees(Install(s, x).s)
            <==> (x.cfg.isBeacon ==> b in s.beacons) && (was.cfg.isBeacon ==> x.cfg.isBeacon && b == PairOf(was))
  {
    var s' := Install(s, x).s;
    var name := x.cfg.name;
    var was, b := s.nodes[name], Beacon(x.id, x.r.p2pPort);
    var others := s.nodes - {name};
    PairsAfterNew(others, name, was);
    PairsAfterNew(others, name, s'.nodes[name]);
    assert others[name := was] == s.nodes && others[name := s'.nodes[name]] == s'.nodes;
    assert PairOf(s'.nodes[name]) == b && s'.beacons == s.beacons;
    if was.cfg.isBeacon {
      assert PairOf(was) !in BeaconPairs(others) by {
        if n :| n in others && others[n].cfg.isBeacon && PairOf(others[n]) == PairOf(was) {
          assert n in s.nodes && s.nodes[n].id == was.id;
        }
      }
      assert PairOf(was) in s.beacons;
    }
    if Agrees(s') {
      assert x.cfg.isBeacon ==> b in BeaconPairs(s'.nodes);
    }
  }

  lemma NoClash(s: State, b: Beacon)
    requires Agrees(s) && forall n :: n in s.nodes ==> s.nodes[n].id != b.id && s.nodes[n].p2pPort != b.port
    ensures !Clashes(s.beacons, b)
  {
    forall i | 0 <= i < |s.beacons| ensures s.beacons[i].id != b.id && s.beacons[i].port != b.port {
      assert s.beacons[i] in s.beacons;
      var n :| n in s.nodes && s.nodes[n].cfg.isBeacon && PairOf(s.nodes[n]) == s.beacons[i];
    }
  }

  /** Under an unused name, distinct IDs and ports are enough. */
  lemma InstallNewAgrees(s: State, x: Ready)
    requires Agrees(s) && x.cfg.name !in s.nodes && Distinct(Install(s, x).s.nodes)
    ensures Agrees(Install(s, x).s)
  {
    hide Agrees, Clashes;
    var nodes' := Install(s, x).s.nodes;
    forall n | n in s.nodes ensures s.nodes[n].id != x.id && s.nodes[n].p2pPort != x.r.p2pPort {
      assert nodes'[n] == s.nodes[n] && n in nodes' && x.cfg.name in nodes';
    }
    NoClash(s, Beacon(x.id, x.r.p2pPort));
    InstallNewAgreesIff(s, x);
  }

  // ---------- starting a node again ----------

  /** The entry of a node that was started again is in the old one's place. */
  predicate SamePlace(was: Node, now: Node) {
    && now.id == was.id && now.apiPort == was.apiPort && now.p2pPort == was.p2pPort
    && now.dataDir == was.dataDir && now.dbDir == was.dbDir && now.logsDir == was.logsDir
    && now.cfg.name == was.cfg.name && now.cfg.isBeacon == was.cfg.isBeacon && now.cfg.cert == was.cfg.cert
    && now.cfg.flags == was.cfg.flags && !now.paused
  }

  /** The command line names the recorded ports and directories. */
  predicate ToldItsPlace(n: Node, args: ArgMap) {
    && {HttpPort, StakingPort, DataDir, DbDir, LogDir} <= args.Keys
    && Says(args[HttpPort], n.apiPort) && Says(args[StakingPort], n.p2pPort)
    && args[DataDir] == n.dataDir && args[DbDir] == n.dbDir && args[LogDir] == n.logsDir
  }

  /** Adding a configuration whose flags were pinned for a node. */
  lemma PinnedReady(s: State, c: NodeConfig, e: AddEnv, was: Node, flags: FlagMap, s': State, x: Ready)
    requires !s.site.reassign && Allocated(s, c) && c.flags.Some? && s.store[c.flags.value] == PinnedFor(flags, was)
    requires c.cert == was.cfg.cert != "" && s.site.idOf(c.cert) == Some(was.id)
    requires c.name == was.cfg.name != "" && c.isBeacon == was.cfg.isBeacon && c.flags == was.cfg.flags
    requires s'.store == StoreWithDefaults(s, c) && ReadyFor(s, c, e, s', x)
    ensures forall pid :: SamePlace(was, NodeOf(x, pid)) && ToldItsPlace(NodeOf(x, pid), x.r.args)
  {
    hide BuildArgs, Pinned;
    assert s'.store[c.flags.value] == s.netFlags + PinnedFor(flags, was);
    PinnedIsRederived(s.site, s.beacons, s.netFlags, flags, c.configFile, Paths.JoinPath(s.rootDir, x.cfg.name), e.args,
                      was.dataDir, was.dbDir, was.logsDir, was.apiPort, was.p2pPort);
    ReadyIsTold(s, s'.store[c.flags.value], c.configFile, Paths.JoinPath(s.rootDir, x.cfg.name), e.args, x.r);
  }

  lemma ReadyIsTold(s: State, flags: FlagMap, file: Option<FlagMap>, nodeDir: string, e: ArgsEnv, r: Resolved)
    requires BuildArgs(s.site, s.beacons, flags, file, nodeDir, e) == Ok(r)
    ensures && {HttpPort, StakingPort, DataDir, DbDir, LogDir} <= r.args.Keys
            && Says(r.args[HttpPort], r.apiPort) && Says(r.args[StakingPort], r.p2pPort)
            && r.args[DataDir] == r.dataDir && r.args[DbDir] == r.dbDir && r.args[LogDir] == r.logsDir
  {
    hide BuildArgs;
    RecordedIsPassed(s.site, s.beacons, flags, file, nodeDir, e);
  }

  /** Adding it, under a paused or an unused name, gives an entry in the old place
      or changes no entry at all. */
  lemma Readded(s: State, c: NodeConfig, e: AddEnv, was: Node, flags: FlagMap)
    requires !s.site.reassign && Allocated(s, c) && c.flags.Some? && s.store[c.flags.value] == PinnedFor(flags, was)
    requires c.cert == was.cfg.cert != "" && s.site.idOf(c.cert) == Some(was.id)
    requires c.name == was.cfg.name != "" && c.isBeacon == was.cfg.isBeacon && c.flags == was.cfg.flags
    requires c.name in s.nodes ==> s.nodes[c.name].paused
    ensures var r := AddNode(s, c, e);
            || (&& c.name in r.s.nodes && r.s.nodes == s.nodes[c.name := r.s.nodes[c.name]]
                && SamePlace(was, r.s.nodes[c.name])
                && |r.s.procs| == |s.procs| + 1 && r.s.nodes[c.name].pid == |s.procs|
                && ToldItsPlace(r.s.nodes[c.name], r.s.procs[|s.procs|].args)
                && (c.name in s.nodes ==> r.err.None? && r.s.beacons == s.beacons)
                && (r.err.None? || r.err == Some(DuplicateBeacon)))
            || (r.err.Some? && r.err != Some(DuplicateBeacon)
                && r.s.nodes == s.nodes && r.s.beacons == s.beacons && r.s.procs == s.procs)
  {
    hide Prepare, BuildArgs, Pinned, ToldItsPlace, SamePlace, StoreWithDefaults, Clashes;
    PrepareFacts(s, c, e);
    var p := Prepare(s, c, e);
    if p.ready.Ok? {
      PinnedReady(s, c, e, was, flags, p.s, p.ready.value);
    }
  }

  /** A resumed node keeps its identity, its ports and its directories, and its new
      process is told them; on a failure it stays as it was. */
  lemma ResumeKeepsPlace(s: State, name: string, e: AddEnv)
    requires WellFormed(s) && Identified(s) && !s.site.reassign && name in s.nodes && s.nodes[name].paused
    ensures var o := ResumeNode(s, name, e);
            name in o.s.nodes && o.s.nodes.Keys == s.nodes.Keys
            && (forall n :: n in s.nodes && n != name ==> o.s.nodes[n] == s.nodes[n])
            && o.s.beacons == s.beacons
            && if o.err.None? then
                 SamePlace(s.nodes[name], o.s.nodes[name]) && |o.s.procs| == |s.procs| + 1
                 && o.s.nodes[name].pid == |s.procs| && ToldItsPlace(o.s.nodes[name], o.s.procs[|s.procs|].args)
               else o.s.nodes == s.nodes && o.s.procs == s.procs
  {
    hide AddNode, Pinned, ToldItsPlace, SamePlace;
    var was := s.nodes[name];
    var a := was.cfg.flags.value;
    Readded(WriteFlags(s, a, PinnedFor(s.store[a], was)), was.cfg, e, was, s.store[a]);
  }

  /** The configuration a restart adds again. */
  function RestartConfig(node: Node, o: Overrides): NodeConfig {
    if o.binaryPath != "" then node.cfg.(binaryPath := o.binaryPath) else node.cfg
  }

  /** What a restart makes of the entries: see RestartKeepsPlace. */
  ghost predicate PlaceKept(s: State, r: Outcome, name: string)
    requires name in s.nodes
  {
    && (forall n :: n != name ==> (n in r.s.nodes <==> n in s.nodes) && (n in s.nodes ==> r.s.nodes[n] == s.nodes[n]))
    && (r.err.None? ==>
          name in r.s.nodes && SamePlace(s.nodes[name], r.s.nodes[name])
          && |r.s.procs| == |s.procs| + 1 && r.s.nodes[name].pid == |s.procs|
          && ToldItsPlace(r.s.nodes[name], r.s.procs[|s.procs|].args))
    && (r.err.Some? && s.nodes[name].paused ==> name in r.s.nodes && r.s.nodes[name].paused)
    && (r.err.Some? && r.err != Some(DuplicateBeacon) && !s.nodes[name].paused ==> name !in r.s.nodes)
  }

  /** A restarted node keeps its identity, its ports and its directories too, and no
      other entry changes. If the restart fails, a node that was running is gone, and
      a paused one is still there, paused. */
  lemma RestartKeepsPlace(s: State, name: string, o: Overrides, code: int, e: AddEnv)
    requires WellFormed(s) && Identified(s) && !s.site.reassign && name in s.nodes
    ensures PlaceKept(s, RestartNode(s, name, o, code, e), name)
  {
    hide PlaceKept, RestartNode, Identified;
    if s.nodes[name].paused { RestartPaused(s, name, o, code, e); } else { RestartRunning(s, name, o, code, e); }
  }

  lemma RestartPaused(s: State, name: string, o: Overrides, code: int, e: AddEnv)
    requires WellFormed(s) && Identified(s) && !s.site.reassign && name in s.nodes && s.nodes[name].paused
    ensures PlaceKept(s, RestartNode(s, name, o, code, e), name)
  {
    hide AddNode, Pinned, ToldItsPlace, SamePlace, OverriddenFlags, RemoveNode;
    var s1, was := Overridden(s, name, o), s.nodes[name];
    Readded(s1, RestartConfig(s1.nodes[name], o), e, was, OverriddenFlags(s.store[was.cfg.flags.value], o));
  }

  lemma RestartRunning(s: State, name: string, o: Overrides, code: int, e: AddEnv)
    requires WellFormed(s) && Identified(s) && !s.site.reassign && name in s.nodes && !s.nodes[name].paused
    ensures PlaceKept(s, RestartNode(s, name, o, code, e), name)
  {
    hide AddNode, Pinned, ToldItsPlace, SamePlace, OverriddenFlags, RemoveNode;
    var s1, was := Overridden(s, name, o), s.nodes[name];
    RemoveFacts(s1, name, code);
    Readded(RemoveNode(s1, name, code).s, RestartConfig(s1.nodes[name], o), e,
            was, OverriddenFlags(s.store[was.cfg.flags.value], o));
  }

  lemma RemoveFacts(s: State, name: string, code: int)
    requires WellFormed(s) && name in s.nodes
    ensures var r := RemoveNode(s, name, code);
            r.s == s.(nodes := s.nodes - {name}, beacons := WithoutId(s.beacons, s.nodes[name].id), procs := r.s.procs)
            && |r.s.procs| == |s.procs|
  {
  }

  // ---------- agreement over runs ----------

  /** Replacing an entry by one with the same pair. */
  lemma PairsAfterSame(nodes: map<string, Node>, name: string, node: Node)
    requires name in nodes && PairOf(node) == PairOf(nodes[name]) && node.cfg.isBeacon == nodes[name].cfg.isBeacon
    ensures BeaconPairs(nodes[name := node]) == BeaconPairs(nodes)
  {
    var others := nodes - {name};
    PairsAfterNew(others, name, nodes[name]);
    PairsAfterNew(others, name, node);
    assert others[name := nodes[name]] == nodes && others[name := node] == nodes[name := node];
  }

  lemma PauseAgrees(s: State, name: string, code: int)
    requires WellFormed(s) && Agrees(s)
    ensures Agrees(PauseNode(s, name, code).s)
  {
    if name in s.nodes {
      PairsAfterSame(s.nodes, name, s.nodes[name].(paused := true));
    }
  }

  lemma AddAgrees(s: State, c: NodeConfig, e: AddEnv)
    requires Agrees(s) && Allocated(s, c) && (c.name == "" || c.name !in s.nodes)
    requires Distinct(AddNode(s, c, e).s.nodes)
    ensures Agrees(AddNode(s, c, e).s)
  {
    hide Prepare, BuildArgs, StoreWithDefaults, WithDefaults, Distinct, Install;
    PrepareFacts(s, c, e);
    var p := Prepare(s, c, e);
    if p.ready.Ok? { InstallNewAgrees(p.s, p.ready.value); }
  }

  lemma ResumeAgrees(s: State, name: string, e: AddEnv)
    requires WellFormed(s) && Identified(s) && !s.site.reassign && Agrees(s)
    ensures Agrees(ResumeNode(s, name, e).s)
  {
    hide ResumeNode;
    if name in s.nodes && s.nodes[name].paused {
      ResumeKeepsPlace(s, name, e);
      var r := ResumeNode(s, name, e);
      assert r.s.nodes == s.nodes[name := r.s.nodes[name]];
      if r.err.None? { PairsAfterSame(s.nodes, name, r.s.nodes[name]); }
    } else {
      ResumeRefused(s, name, e);
    }
  }

  lemma ResumeRefused(s: State, name: string, e: AddEnv)
    requires WellFormed(s) && (name in s.nodes ==> !s.nodes[name].paused)
    ensures ResumeNode(s, name, e).s == s
  {
  }

  lemma OverriddenAgrees(s: State, name: string, o: Overrides)
    requires WellFormed(s) && Agrees(s) && name in s.nodes
    ensures Agrees(Overridden(s, name, o))
  {
    hide PinnedFor, OverriddenFlags;
    PairsAfterSame(s.nodes, name, Overridden(s, name, o).nodes[name]);
  }

  lemma RestartAgrees(s: State, name: string, o: Overrides, code: int, e: AddEnv)
    requires WellFormed(s) && Identified(s) && !s.site.reassign && Agrees(s) && Distinct(s.nodes)
    ensures Agrees(RestartNode(s, name, o, code, e).s)
  {
    hide Agrees, Distinct, Pinned, OverriddenFlags, AddNode, RemoveNode, SamePlace, ToldItsPlace;
    if name in s.nodes {
      var was := s.nodes[name];
      var s1 := Overridden(s, name, o);
      OverriddenAgrees(s, name, o);
      var c := RestartConfig(s1.nodes[name], o);
      if was.paused {
        Readded(s1, c, e, was, OverriddenFlags(s.store[was.cfg.flags.value], o));
        ReaddedAgrees(s1, AddNode(s1, c, e).s, name, was);
      } else {
        OverriddenDistinct(s, name, o);
        RemoveAgrees(s1, name, code);
        RemoveFacts(s1, name, code);
        var r := RemoveNode(s1, name, code);
        if r.err.None? {
          Readded(r.s, c, e, was, OverriddenFlags(s.store[was.cfg.flags.value], o));
          ReaddedDistinct(s, r.s, AddNode(r.s, c, e).s, name);
          AddAgrees(r.s, c, e);
        }
      }
    }
  }

  lemma OverriddenDistinct(s: State, name: string, o: Overrides)
    requires WellFormed(s) && Distinct(s.nodes) && name in s.nodes
    ensures Distinct(Overridden(s, name, o).nodes)
  {
    hide PinnedFor, OverriddenFlags;
  }

  lemma ReaddedAgrees(s: State, s': State, name: string, was: Node)
    requires Agrees(s) && s'.beacons == s.beacons && name in s.nodes
    requires PairOf(s.nodes[name]) == PairOf(was) && s.nodes[name].cfg.isBeacon == was.cfg.isBeacon
    requires s'.nodes == s.nodes
             || (name in s'.nodes && s'.nodes == s.nodes[name := s'.nodes[name]] && SamePlace(was, s'.nodes[name]))
    ensures Agrees(s')
  {
    if s'.nodes != s.nodes { PairsAfterSame(s.nodes, name, s'.nodes[name]); }
  }

  lemma ReaddedDistinct(s: State, s1: State, s': State, name: string)
    requires Distinct(s.nodes) && name in s.nodes
    requires forall n :: n in s1.nodes <==> n in s.nodes && n != name
    requires forall n :: n in s1.nodes ==> s1.nodes[n] == s.nodes[n]
    requires s'.nodes == s1.nodes
             || (name in s'.nodes && s'.nodes == s1.nodes[name := s'.nodes[name]] && SamePlace(s.nodes[name], s'.nodes[name]))
    ensures Distinct(s'.nodes)
  {
  }

  /** Every beacon belongs to some node. */
  ghost predicate Covered(s: State) {
    forall b :: b in s.beacons ==> exists n :: n in s.nodes && s.nodes[n].id == b.id
  }

  lemma StopAllEmptiesBeacons(s: State, codes: nat -> int)
    requires WellFormed(s) && Covered(s)
    ensures StopAll(s, codes).s.beacons == []
  {
    WithoutIdsMembers(s.beacons, Ids(s.nodes));
    var left := WithoutIds(s.beacons, Ids(s.nodes));
    forall b | b in s.beacons ensures b.id in Ids(s.nodes) {
      var n :| n in s.nodes && s.nodes[n].id == b.id;
    }
    HasMember(left);
  }

  lemma HasMember(beacons: seq<Beacon>)
    ensures beacons == [] || exists b :: b in beacons
  {
    if beacons != [] { assert beacons[0] in beacons; }
  }

  ghost predicate NonePaused(nodes: map<string, Node>) {
    forall n :: n in nodes ==> !nodes[n].paused
  }

  lemma InstallCovered(s: State, x: Ready)
    requires Covered(s) && x.cfg.name !in s.nodes
    ensures Covered(Install(s, x).s)
  {
    var s' := Install(s, x).s;
    assert s'.nodes[x.cfg.name].id == x.id;
    forall b | b in s'.beacons ensures exists n :: n in s'.nodes && s'.nodes[n].id == b.id {
      if b in s.beacons {
        var n :| n in s.nodes && s.nodes[n].id == b.id;
        assert s'.nodes[n] == s.nodes[n];
      } else {
        assert b.id == s'.nodes[x.cfg.name].id;
      }
    }
  }

  /** Adding to a network without paused nodes only adds, and keeps every beacon covered. */
  lemma AddCovered(s: State, c: NodeConfig, e: AddEnv)
    requires Allocated(s, c) && Covered(s) && NonePaused(s.nodes)
    ensures var s' := AddNode(s, c, e).s;
            Covered(s') && NonePaused(s'.nodes) && (forall n :: n in s.nodes ==> n in s'.nodes && s'.nodes[n] == s.nodes[n])
            && (s'.nodes == s.nodes || c.name == "" || c.name !in s.nodes)
            && (c.name != "" && c.name in s.nodes ==> s'.beacons == s.beacons)
  {
    hide Prepare, BuildArgs, StoreWithDefaults, WithDefaults, Covered;
    PrepareFacts(s, c, e);
    var p := Prepare(s, c, e);
    assert Covered(p.s) by { CoveredSame(s, p.s); }
    if p.ready.Ok? { InstallCovered(p.s, p.ready.value); }
  }

  lemma CoveredSame(s: State, s': State)
    requires Covered(s) && s'.nodes == s.nodes && s'.beacons == s.beacons
    ensures Covered(s')
  {
  }

  lemma {:induction false} AddAllCovered(s: State, cs: seq<NodeConfig>, envs: nat -> AddEnv)
    requires AllAllocated(s, cs) && Covered(s) && NonePaused(s.nodes)
    ensures Covered(AddAll(s, cs, envs).s) && NonePaused(AddAll(s, cs, envs).s.nodes)
    decreases |cs|
  {
    hide AddNode, Covered, NonePaused;
    if cs != [] {
      AddAllCovered(s, cs[..|cs| - 1], envs);
      var first := AddAll(s, cs[..|cs| - 1], envs);
      if first.err.None? { AddCovered(first.s, cs[|cs| - 1], envs(|cs| - 1)); }
    }
  }

  /** A network that cannot load its configuration ends without nodes and without beacons. */
  lemma FailedLoadLeavesNothing(s: State, conf: NetConfig, envs: nat -> AddEnv, codes: nat -> int)
    requires WellFormed(s) && AllAllocated(s, conf.nodes) && s.nodes == map[] && s.beacons == []
    requires LoadConfig(s, conf, envs, codes).err.Some?
    ensures LoadConfig(s, conf, envs, codes).s.nodes == map[] && LoadConfig(s, conf, envs, codes).s.beacons == []
  {
    hide AddAll, StartOrder;
    if ValidConfig(s.site, conf) {
      StartOrderAllocated(s, conf.nodes);
      var s1 := WithNetDefaults(s, conf);
      AddAllCovered(s1, StartOrder(conf.nodes), envs);
      StopAllEmptiesBeacons(AddAll(s1, StartOrder(conf.nodes), envs).s, codes);
    }
  }

  lemma DistinctPart(nodes: map<string, Node>, more: map<string, Node>)
    requires Distinct(more) && forall n :: n in nodes ==> n in more && more[n] == nodes[n]
    ensures Distinct(nodes)
  {
  }

  lemma {:induction false} AddAllAgrees(s: State, cs: seq<NodeConfig>, envs: nat -> AddEnv)
    requires AllAllocated(s, cs) && Covered(s) && NonePaused(s.nodes) && Agrees(s)
    requires AddAll(s, cs, envs).err.None? && Distinct(AddAll(s, cs, envs).s.nodes)
    ensures Agrees(AddAll(s, cs, envs).s)
    decreases |cs|
  {
    hide AddNode, Covered, NonePaused, Agrees, Distinct;
    if cs != [] {
      var front := cs[..|cs| - 1];
      var first := AddAll(s, front, envs).s;
      var c, e := cs[|cs| - 1], envs(|cs| - 1);
      AddAllCovered(s, front, envs);
      AddCovered(first, c, e);
      DistinctPart(first.nodes, AddNode(first, c, e).s.nodes);
      AddAllAgrees(s, front, envs);
      if c.name == "" || c.name !in first.nodes {
        AddAgrees(first, c, e);
      } else {
        assert c.name != "" && c.name in first.nodes;
        AgreesSame(first, AddNode(first, c, e).s);
      }
    }
  }

  lemma AgreesSame(s: State, s': State)
    requires Agrees(s) && s'.nodes == s.nodes && s'.beacons == s.beacons
    ensures Agrees(s')
  {
  }

  lemma NoNodesAgree(s: State)
    requires s.nodes == map[] && s.beacons == []
    ensures Agrees(s) && Covered(s) && NonePaused(s.nodes)
  {
  }

  lemma AgreesIsCovered(s: State)
    requires Agrees(s)
    ensures Covered(s)
  {
    forall b | b in s.beacons ensures exists n :: n in s.nodes && s.nodes[n].id == b.id {
      var n :| n in s.nodes && s.nodes[n].cfg.isBeacon && PairOf(s.nodes[n]) == b;
    }
  }

  lemma LoadAgrees(s: State, conf: NetConfig, envs: nat -> AddEnv, codes: nat -> int)
    requires WellFormed(s) && AllAllocated(s, conf.nodes) && s.nodes == map[] && Agrees(s)
    requires Distinct(LoadConfig(s, conf, envs, codes).s.nodes)
    ensures Agrees(LoadConfig(s, conf, envs, codes).s)
  {
    hide AddAll, StartOrder, Agrees, Distinct, Covered, NonePaused;
    EmptyAgrees(s);
    if LoadConfig(s, conf, envs, codes).err.Some? {
      FailedLoadLeavesNothing(s, conf, envs, codes);
      NoNodesAgree(LoadConfig(s, conf, envs, codes).s);
    } else {
      StartOrderAllocated(s, conf.nodes);
      NoNodesAgree(WithNetDefaults(s, conf));
      AddAllAgrees(WithNetDefaults(s, conf), StartOrder(conf.nodes), envs);
    }
  }

  lemma EmptyAgrees(s: State)
    requires s.nodes == map[] && Agrees(s)
    ensures s.beacons == []
  {
    HasMember(s.beacons);
  }

  lemma StopAllAgrees(s: State, codes: nat -> int)
    requires WellFormed(s) && Agrees(s)
    ensures Agrees(StopAll(s, codes).s)
  {
    hide Agrees;
    AgreesIsCovered(s);
    StopAllEmptiesBeacons(s, codes);
    NoNodesAgree(StopAll(s, codes).s);
  }

  // ---------- identities over runs ----------

  lemma InstallIdentified(s: State, x: Ready)
    requires Identified(s) && x.cfg.name != "" && x.cfg.cert != "" && s.site.idOf(x.cfg.cert) == Some(x.id)
    ensures Identified(Install(s, x).s)
  {
    hide Clashes;
  }

  lemma AddIdentified(s: State, c: NodeConfig, e: AddEnv)
    requires Identified(s) && Allocated(s, c)
    ensures Identified(AddNode(s, c, e).s)
  {
    hide Prepare, BuildArgs, StoreWithDefaults, Install, Identified, WithDefaults;
    PrepareFacts(s, c, e);
    var p := Prepare(s, c, e);
    IdentifiedPart(s, p.s);
    if p.ready.Ok? { InstallIdentified(p.s, p.ready.value); }
  }

  lemma {:induction false} AddAllIdentified(s: State, cs: seq<NodeConfig>, envs: nat -> AddEnv)
    requires Identified(s) && AllAllocated(s, cs)
    ensures Identified(AddAll(s, cs, envs).s)
    decreases |cs|
  {
    hide AddNode, Identified;
    if cs != [] {
      AddAllIdentified(s, cs[..|cs| - 1], envs);
      var first := AddAll(s, cs[..|cs| - 1], envs);
      if first.err.None? { AddIdentified(first.s, cs[|cs| - 1], envs(|cs| - 1)); }
    }
  }

  lemma IdentifiedPart(s: State, s': State)
    requires Identified(s) && s'.site == s.site
    requires forall n :: n in s'.nodes ==>
               n in s.nodes && s'.nodes[n].id == s.nodes[n].id
               && s'.nodes[n].cfg.name == s.nodes[n].cfg.name && s'.nodes[n].cfg.cert == s.nodes[n].cfg.cert
    ensures Identified(s')
  {
  }

  lemma LoadIdentified(s: State, conf: NetConfig, envs: nat -> AddEnv, codes: nat -> int)
    requires WellFormed(s) && AllAllocated(s, conf.nodes) && Identified(s)
    ensures Identified(LoadConfig(s, conf, envs, codes).s)
  {
    hide AddAll, StartOrder, WithoutIds, HaltAll, Identified, ValidConfig;
    StartOrderAllocated(s, conf.nodes);
    var s1 := WithNetDefaults(s, conf);
    IdentifiedPart(s, s1);
    AddAllIdentified(s1, StartOrder(conf.nodes), envs);
    var s2 := AddAll(s1, StartOrder(conf.nodes), envs).s;
    IdentifiedPart(s2, StopAll(s2, codes).s);
  }

  lemma ResumeIdentified(s: State, name: string, e: AddEnv)
    requires WellFormed(s) && Identified(s)
    ensures Identified(ResumeNode(s, name, e).s)
  {
    hide AddNode, Pinned, Identified;
    if name in s.nodes {
      var a := s.nodes[name].cfg.flags.value;
      var s1 := WriteFlags(s, a, PinnedFor(s.store[a], s.nodes[name]));
      IdentifiedPart(s, s1);
      AddIdentified(s1, s.nodes[name].cfg, e);
    }
  }

  lemma RemoveIdentified(s: State, name: string, code: int)
    requires WellFormed(s) && Identified(s)
    ensures Identified(RemoveNode(s, name, code).s)
  {
    hide WithoutId, Identified;
    IdentifiedPart(s, RemoveNode(s, name, code).s);
  }

  /** Pausing changes a mark and a process, and nothing else. */
  lemma PauseFacts(s: State, name: string, code: int)
    requires WellFormed(s)
    ensures var r := PauseNode(s, name, code).s;
            && r == s.(nodes := r.nodes, procs := r.procs)
            && (r.nodes == s.nodes || (name in s.nodes && r.nodes == s.nodes[name := s.nodes[name].(paused := true)]))
  {
    hide ExitCode, Halt;
  }

  lemma PauseIdentified(s: State, name: string, code: int)
    requires WellFormed(s) && Identified(s)
    ensures Identified(PauseNode(s, name, code).s)
  {
    hide PauseNode;
    PauseFacts(s, name, code);
  }

  lemma OverriddenIdentified(s: State, name: string, o: Overrides)
    requires WellFormed(s) && Identified(s) && name in s.nodes
    ensures Identified(Overridden(s, name, o)) && WellFormed(Overridden(s, name, o))
    ensures name in Overridden(s, name, o).nodes
  {
    hide PinnedFor, OverriddenFlags, Identified;
    IdentifiedPart(s, Overridden(s, name, o));
  }

  lemma SetFileIdentified(s: State, name: string, file: (FileKind, string), text: string)
    requires WellFormed(s) && Identified(s)
    ensures Identified(Do(s, SetFile(name, file, text)))
  {
    hide Identified;
    IdentifiedPart(s, Do(s, SetFile(name, file, text)));
  }

  lemma RestartIdentified(s: State, name: string, o: Overrides, code: int, e: AddEnv)
    requires WellFormed(s) && Identified(s)
    ensures Identified(RestartNode(s, name, o, code, e).s)
  {
    hide AddNode, Overridden, RemoveNode, Identified;
    if name in s.nodes {
      OverriddenIdentified(s, name, o);
      var s1 := Overridden(s, name, o);
      var c := RestartConfig(s1.nodes[name], o);
      if s1.nodes[name].paused {
        AddIdentified(s1, c, e);
      } else {
        RemoveIdentified(s1, name, code);
        RemoveFacts(s1, name, code);
        AddIdentified(RemoveNode(s1, name, code).s, c, e);
      }
    }
  }

  lemma OpIdentified(s: State, op: Op)
    requires WellFormed(s) && Legal(s, op) && Identified(s)
    ensures Identified(Do(s, op))
  {
    hide AddNode, LoadConfig, RemoveNode, PauseNode, ResumeNode, RestartNode, WithoutIds, HaltAll, Identified;
    match op
    case Load(conf, envs, codes) => LoadIdentified(s, conf, envs, codes);
    case Add(c, e) => AddIdentified(s, c, e);
    case AddUnchecked(c, e) => AddIdentified(s, c, e);
    case Resume(name, e) => ResumeIdentified(s, name, e);
    case Restart(name, o, code, e) => RestartIdentified(s, name, o, code, e);
    case Remove(name, code) => RemoveIdentified(s, name, code);
    case Pause(name, code) => PauseIdentified(s, name, code);
    case SetFile(name, file, text) => SetFileIdentified(s, name, file, text);
    case _ => IdentifiedPart(s, Do(s, op));
  }

  /** So in every run. */
  lemma {:induction false} RunIdentified(s: State, ops: seq<Op>)
    requires Inv(s) && Possible(s, ops) && Identified(s)
    ensures Identified(Run(s, ops)) && Run(s, ops).site == s.site
    decreases |ops|
  {
    hide Do, Identified, Owned;
    if ops != [] {
      OpKeepsInv(s, ops[0]);
      OpIdentified(s, ops[0]);
      OpKeepsSite(s, ops[0]);
      RunIdentified(Do(s, ops[0]), ops[1..]);
    }
  }

  // ---------- the run theorem ----------

  /** A step that keeps to the rules of this result: nodes are added under names
      that are not in use, a configuration is loaded into an empty network, and no
      two nodes share an ID or a port afterwards. */
  ghost predicate Orderly(s: State, op: Op)
    requires WellFormed(s) && Legal(s, op)
  {
    && (op.Add? || op.AddUnchecked? ==> op.cfg.name == "" || op.cfg.name !in s.nodes)
    && (op.Load? ==> s.nodes == map[])
    && Distinct(Do(s, op).nodes)
  }

  lemma OpAgrees(s: State, op: Op)
    requires WellFormed(s) && Identified(s) && !s.site.reassign && Agrees(s) && Distinct(s.nodes)
    requires Legal(s, op) && Orderly(s, op)
    ensures Agrees(Do(s, op))
  {
    hide AddNode, LoadConfig, RemoveNode, PauseNode, ResumeNode, RestartNode, StopAll, Agrees, Distinct, Identified;
    match op
    case Load(conf, envs, codes) => LoadAgrees(s, conf, envs, codes);
    case Add(c, e) => if !s.stopped { AddAgrees(s, c, e); }
    case AddUnchecked(c, e) => AddAgrees(s, c, e);
    case Remove(name, code) => RemoveAgrees(s, name, code);
    case Pause(name, code) => PauseAgrees(s, name, code);
    case Resume(name, e) => ResumeAgrees(s, name, e);
    case Restart(name, o, code, e) => RestartAgrees(s, name, o, code, e);
    case StopLocked(codes) => StopAllAgrees(s, codes);
    case Save(proceeds, codes) => StopAllAgrees(s, codes);
    case SetFile(name, file, text) => SetFileAgrees(s, name, file, text);
    case _ => AgreesSame(s, Do(s, op));
  }

  lemma SetFileAgrees(s: State, name: string, file: (FileKind, string), text: string)
    requires WellFormed(s) && Agrees(s)
    ensures Agrees(Do(s, SetFile(name, file, text)))
  {
    if name in s.nodes {
      PairsAfterSame(s.nodes, name, Do(s, SetFile(name, file, text)).nodes[name]);
    }
  }

  ghost predicate OrderlyRun(s: State, ops: seq<Op>)
    requires Inv(s) && Possible(s, ops)
    decreases |ops|
  {
    ops == [] || (Orderly(s, ops[0]) && (OpKeepsInv(s, ops[0]); OrderlyRun(Do(s, ops[0]), ops[1..])))
  }

  lemma {:induction false} RunAgrees(s: State, ops: seq<Op>)
    requires Inv(s) && Possible(s, ops) && OrderlyRun(s, ops)
    requires Identified(s) && !s.site.reassign && Agrees(s) && Distinct(s.nodes)
    ensures Agrees(Run(s, ops))
    decreases |ops|
  {
    hide Do, Agrees, Distinct, Identified, Owned;
    if ops != [] {
      OpKeepsInv(s, ops[0]);
      OpIdentified(s, ops[0]);
      OpAgrees(s, ops[0]);
      OpKeepsSite(s, ops[0]);
      RunAgrees(Do(s, ops[0]), ops[1..]);
    }
  }

  lemma {:induction false} AddAllKeepsSite(s: State, cs: seq<NodeConfig>, envs: nat -> AddEnv)
    requires AllAllocated(s, cs)
    ensures AddAll(s, cs, envs).s.site == s.site
    decreases |cs|
  {
    hide AddNode;
    if cs != [] {
      AddAllKeepsSite(s, cs[..|cs| - 1], envs);
      var first := AddAll(s, cs[..|cs| - 1], envs);
      if first.err.None? { AddNodeOnlyAdds(first.s, cs[|cs| - 1], envs(|cs| - 1)); }
    }
  }

  lemma OpKeepsSite(s: State, op: Op)
    requires WellFormed(s) && Legal(s, op)
    ensures Do(s, op).site == s.site
  {
    hide AddNode, AddAll, StartOrder, OverriddenFlags, Pinned, WithoutId;
    match op
    case Load(conf, envs, codes) =>
      StartOrderAllocated(s, conf.nodes);
      AddAllKeepsSite(WithNetDefaults(s, conf), StartOrder(conf.nodes), envs);
    case Add(c, e) => AddNodeOnlyAdds(s, c, e);
    case AddUnchecked(c, e) => AddNodeOnlyAdds(s, c, e);
    case Resume(name, e) =>
      if name in s.nodes {
        var a := s.nodes[name].cfg.flags.value;
        AddNodeOnlyAdds(WriteFlags(s, a, PinnedFor(s.store[a], s.nodes[name])), s.nodes[name].cfg, e);
      }
    case Restart(name, o, code, e) =>
      if name in s.nodes {
        var s1 := Overridden(s, name, o);
        var c := RestartConfig(s1.nodes[name], o);
        if s1.nodes[name].paused { AddNodeOnlyAdds(s1, c, e); }
        else { AddNodeOnlyAdds(RemoveNode(s1, name, code).s, c, e); }
      }
    case _ =>
  }

  /** In every orderly run of a network that does not reassign ports, the beacon set
      is exactly the (ID, port) pairs of the nodes marked as beacons, paused or not. */
  lemma BeaconsAgree(site: Site, rootDir: string, ops: seq<Op>)
    requires !site.reassign && Possible(NewNetwork(site, rootDir), ops) && OrderlyRun(NewNetwork(site, rootDir), ops)
    ensures var s := Run(NewNetwork(site, rootDir), ops);
            Elements(s.beacons) == BeaconPairs(s.nodes)
  {
    var s0 := NewNetwork(site, rootDir);
    assert Agrees(s0) && Distinct(s0.nodes) && Identified(s0);
    RunAgrees(s0, ops);
  }
}
