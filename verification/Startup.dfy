/** The order in which loadConfig starts the nodes, and whom each one is told to
    bootstrap from (local/network.go:460-483 and 1085-1094). */
module Startup {
  import opened Common
  import opened Paths
  import opened Flags
  import opened Network
  import opened BeaconSet

  /** The flags a configuration is started with: the network's below its own. */
  function FlagsGiven(s: State, c: NodeConfig): FlagMap
    requires Allocated(s, c)
  {
    s.netFlags + (if c.flags.Some? then s.store[c.flags.value] else map[])
  }

  /** What a process is told under a key: what its flags say, or else the argument. */
  function Unless(site: Site, flags: FlagMap, k: Key, arg: string): string {
    if k in flags then Show(site.floats, flags[k]) else arg
  }

  /** The process of a node is told to bootstrap from these beacons, unless its flags name others. */
  predicate BootstrapsFrom(args: ArgMap, site: Site, flags: FlagMap, beacons: seq<Beacon>) {
    && BootstrapIds in args && args[BootstrapIds] == Unless(site, flags, BootstrapIds, IdsArg(beacons))
    && BootstrapIps in args && args[BootstrapIps] == Unless(site, flags, BootstrapIps, IpsArg(beacons))
  }

  /** Nothing but the network's flags was merged into the maps of the store. */
  ghost predicate StoreFrom(s: State, s': State) {
    && |s'.store| >= |s.store| && s'.netFlags == s.netFlags && s'.site == s.site
    && (forall a :: 0 <= a < |s.store| ==> s'.store[a] == s.store[a] || s'.store[a] == s.netFlags + s.store[a])
  }

  lemma GivenLater(s: State, s': State, c: NodeConfig)
    requires StoreFrom(s, s') && Allocated(s, c)
    ensures Allocated(s', c) && FlagsGiven(s', c) == FlagsGiven(s, c)
  {
    if c.flags.Some? {
      var m := s.store[c.flags.value];
      assert s.netFlags + (s.netFlags + m) == s.netFlags + m;
    }
  }

  lemma StoreFromTwice(s: State, m: State, r: State)
    requires StoreFrom(s, m) && StoreFrom(m, r)
    ensures StoreFrom(s, r)
  {
    forall a | 0 <= a < |s.store| ensures r.store[a] == s.store[a] || r.store[a] == s.netFlags + s.store[a] {
      assert s.netFlags + (s.netFlags + s.store[a]) == s.netFlags + s.store[a];
    }
  }

  /** What one successful addition to a network without paused nodes starts. */
  lemma AddStarts(s: State, c: NodeConfig, e: AddEnv)
    requires Allocated(s, c) && NonePaused(s.nodes) && c.cert != ""
    requires AddNode(s, c, e).err.None?
    ensures var s' := AddNode(s, c, e).s;
            && NonePaused(s'.nodes) && StoreFrom(s, s')
            && |s'.procs| == |s.procs| + 1 && s'.procs[..|s.procs|] == s.procs
            && (var p := s'.procs[|s.procs|];
                && p.exit.None? && s.site.idOf(c.cert) == Some(p.id)
                && BootstrapsFrom(p.args, s.site, FlagsGiven(s, c), s.beacons)
                && (c.name != "" ==> p.name == c.name) && p.name !in s.nodes
                && p.name in s'.nodes && s'.nodes == s.nodes[p.name := s'.nodes[p.name]]
                && s'.nodes[p.name].id == p.id && s'.nodes[p.name].cfg.isBeacon == c.isBeacon
                && s'.nodes[p.name].pid == |s.procs|
                && s'.beacons == s.beacons + (if c.isBeacon then [PairOf(s'.nodes[p.name])] else [])
                && (c.isBeacon ==> !Clashes(s.beacons, PairOf(s'.nodes[p.name]))))
  {
    hide Prepare, BuildArgs, BootstrapsFrom, Clashes, StoreFrom, FlagsGiven, StoreWithDefaults;
    PrepareFacts(s, c, e);
    var p := Prepare(s, c, e);
    ToldBeacons(s, c, e, p.s, p.ready.value);
    StoreWithDefaultsFrom(s, c, AddNode(s, c, e).s);
  }

  lemma ToldBeacons(s: State, c: NodeConfig, e: AddEnv, s': State, x: Ready)
    requires Allocated(s, c) && s'.store == StoreWithDefaults(s, c) && ReadyFor(s, c, e, s', x)
    ensures BootstrapsFrom(x.r.args, s.site, FlagsGiven(s, c), s.beacons)
  {
    hide BuildArgs, IdsArg, IpsArg, FlagsGiven, StoreWithDefaults;
    StoredFlags(s, c);
    NodeFlagIsPassed(s.site, s.beacons, FlagsGiven(s, c), c.configFile, JoinPath(s.rootDir, x.cfg.name), e.args, BootstrapIds);
    NodeFlagIsPassed(s.site, s.beacons, FlagsGiven(s, c), c.configFile, JoinPath(s.rootDir, x.cfg.name), e.args, BootstrapIps);
  }

  lemma StoredFlags(s: State, c: NodeConfig)
    requires Allocated(s, c)
    ensures StoreWithDefaults(s, c)[FlagsAddress(s, c)] == FlagsGiven(s, c)
  {
    assert s.netFlags + map[] == s.netFlags;
  }

  lemma StoreWithDefaultsFrom(s: State, c: NodeConfig, s': State)
    requires Allocated(s, c) && s'.store == StoreWithDefaults(s, c) && s'.netFlags == s.netFlags && s'.site == s.site
    ensures StoreFrom(s, s')
  {
  }

  /** How many of the first k are beacons. */
  function BeaconsBefore(cs: seq<NodeConfig>, k: nat): nat
    requires k <= |cs|
  {
    if k == 0 then 0 else BeaconsBefore(cs, k - 1) + (if cs[k - 1].isBeacon then 1 else 0)
  }

  lemma {:induction false} BeaconsBeforePrefix(cs: seq<NodeConfig>, m: nat, k: nat)
    requires k <= m <= |cs|
    ensures BeaconsBefore(cs[..m], k) == BeaconsBefore(cs, k)
    ensures BeaconsBefore(cs, k) <= BeaconsBefore(cs, m)
    decreases m, k
  {
    if k > 0 { BeaconsBeforePrefix(cs, m, k - 1); }
    if k < m { BeaconsBeforePrefix(cs, m - 1, k); }
  }

  /** The k-th process of a started list: its identity, and the beacons it is told. */
  ghost predicate StartedInOrder(s: State, s': State, cs: seq<NodeConfig>, k: nat)
    requires k < |cs| && Allocated(s, cs[k])
  {
    var n := BeaconsBefore(cs, k);
    && |s.procs| + k < |s'.procs|
    && |s.beacons| + n <= |s'.beacons|
    && (var p := s'.procs[|s.procs| + k];
        && p.exit.None? && s.site.idOf(cs[k].cert) == Some(p.id) && (cs[k].name != "" ==> p.name == cs[k].name)
        && p.name in s'.nodes && s'.nodes[p.name].pid == |s.procs| + k && s'.nodes[p.name].id == p.id
        && s'.nodes[p.name].cfg.isBeacon == cs[k].isBeacon
        && BootstrapsFrom(p.args, s.site, FlagsGiven(s, cs[k]), s'.beacons[..|s.beacons| + n])
        && (cs[k].isBeacon ==>
              |s.beacons| + n < |s'.beacons| && s'.beacons[|s.beacons| + n] == PairOf(s'.nodes[p.name])))
  }

  lemma {:induction false} AddAllStarts(s: State, cs: seq<NodeConfig>, envs: nat -> AddEnv)
    requires AllAllocated(s, cs) && NonePaused(s.nodes)
    requires forall i :: 0 <= i < |cs| ==> cs[i].cert != ""
    requires AddAll(s, cs, envs).err.None?
    ensures var s' := AddAll(s, cs, envs).s;
            && NonePaused(s'.nodes) && StoreFrom(s, s')
            && |s'.procs| == |s.procs| + |cs| && |s'.beacons| == |s.beacons| + BeaconsBefore(cs, |cs|)
            && (forall k :: 0 <= k < |cs| ==> StartedInOrder(s, s', cs, k))
    decreases |cs|
  {
    hide AddNode, NonePaused, StoreFrom, StartedInOrder, BootstrapsFrom, Clashes, FlagsGiven;
    if cs == [] {
      StoreFromSame(s);
    } else {
      var m := |cs| - 1;
      var front := cs[..m];
      AddAllStarts(s, front, envs);
      var first := AddAll(s, front, envs).s;
      AddStarts(first, cs[m], envs(m));
      var s' := AddNode(first, cs[m], envs(m)).s;
      BeaconsBeforePrefix(cs, m, m);
      GivenLater(s, first, cs[m]);
      StoreFromTwice(s, first, s');
      SameSite(s, first);
      forall k | 0 <= k < m ensures StartedInOrder(s, s', cs, k) {
        StillStarted(s, first, s', cs, k);
      }
      LastStarted(s, first, s', cs);
    }
  }

  lemma StoreFromSame(s: State)
    ensures StoreFrom(s, s)
  {
  }

  lemma SameSite(s: State, s': State)
    requires StoreFrom(s, s')
    ensures s'.site == s.site
  {
  }

  lemma StillStarted(s: State, first: State, s': State, cs: seq<NodeConfig>, k: nat)
    requires cs != [] && k < |cs| - 1 && Allocated(s, cs[k]) && StartedInOrder(s, first, cs[..|cs| - 1], k)
    requires |first.procs| <= |s'.procs| && s'.procs[..|first.procs|] == first.procs
    requires |first.beacons| <= |s'.beacons| && s'.beacons[..|first.beacons|] == first.beacons
    requires forall n :: n in first.nodes ==> n in s'.nodes && s'.nodes[n] == first.nodes[n]
    ensures StartedInOrder(s, s', cs, k)
  {
    hide BootstrapsFrom, FlagsGiven;
    BeaconsBeforePrefix(cs, |cs| - 1, k);
    var n := |s.beacons| + BeaconsBefore(cs, k);
    assert s'.procs[|s.procs| + k] == s'.procs[..|first.procs|][|s.procs| + k];
    assert s'.beacons[..n] == s'.beacons[..|first.beacons|][..n];
    if cs[k].isBeacon { assert s'.beacons[n] == s'.beacons[..|first.beacons|][n]; }
  }

  lemma {:induction false} LastStarted(s: State, first: State, s': State, cs: seq<NodeConfig>)
    requires cs != [] && Allocated(s, cs[|cs| - 1]) && |first.procs| == |s.procs| + |cs| - 1 && |s'.procs| == |first.procs| + 1
    requires |first.beacons| == |s.beacons| + BeaconsBefore(cs, |cs| - 1)
    requires var c, p := cs[|cs| - 1], s'.procs[|first.procs|];
             && p.exit.None? && s.site.idOf(c.cert) == Some(p.id) && BootstrapsFrom(p.args, s.site, FlagsGiven(s, c), first.beacons)
             && (c.name != "" ==> p.name == c.name)
             && p.name in s'.nodes && s'.nodes[p.name].id == p.id && s'.nodes[p.name].cfg.isBeacon == c.isBeacon
             && s'.nodes[p.name].pid == |first.procs|
             && s'.beacons == first.beacons + (if c.isBeacon then [PairOf(s'.nodes[p.name])] else [])
    ensures StartedInOrder(s, s', cs, |cs| - 1)
  {
    hide BootstrapsFrom, BeaconsBefore, PairOf, FlagsGiven;
    var k := |cs| - 1;
    var n := BeaconsBefore(cs, k);
    assert |s.beacons| + n == |first.beacons|;
    assert s'.beacons[..|first.beacons|] == first.beacons;
    assert s'.procs[|s.procs| + k] == s'.procs[|first.procs|];
  }

  // ---------- beacons first ----------

  lemma {:induction false} PickAll(cs: seq<NodeConfig>, beacon: bool)
    ensures forall i :: 0 <= i < |Pick(cs, beacon)| ==> Pick(cs, beacon)[i].isBeacon == beacon
  {
    if cs != [] { PickAll(cs[1..], beacon); }
  }

  lemma {:induction false} PickMultiset(cs: seq<NodeConfig>)
    ensures multiset(StartOrder(cs)) == multiset(cs)
  {
    if cs != [] {
      PickMultiset(cs[1..]);
      assert cs == [cs[0]] + cs[1..];
      assert multiset(cs) == multiset{cs[0]} + multiset(Pick(cs[1..], true) + Pick(cs[1..], false));
      if cs[0].isBeacon {
        assert StartOrder(cs) == [cs[0]] + (Pick(cs[1..], true) + Pick(cs[1..], false));
      }
    }
  }

  /** Where the i-th configuration goes: to its rank among its own kind, the
      non-beacons after all beacons. So the order is stable. */
  function Position(cs: seq<NodeConfig>, i: nat): nat
    requires i < |cs|
  {
    BeaconsBeforeBound(cs, i);
    if cs[i].isBeacon then BeaconsBefore(cs, i) else |Pick(cs, true)| + (i - BeaconsBefore(cs, i))
  }

  lemma {:induction false} BeaconsBeforeBound(cs: seq<NodeConfig>, k: nat)
    requires k <= |cs|
    ensures BeaconsBefore(cs, k) <= k
  {
    if k > 0 { BeaconsBeforeBound(cs, k - 1); }
  }

  lemma {:induction false} BeaconsBeforeTail(cs: seq<NodeConfig>, k: nat)
    requires 0 < k <= |cs|
    ensures BeaconsBefore(cs, k) == (if cs[0].isBeacon then 1 else 0) + BeaconsBefore(cs[1..], k - 1)
  {
    if k > 1 { BeaconsBeforeTail(cs, k - 1); }
  }

  lemma {:induction false} PickAt(cs: seq<NodeConfig>, i: nat)
    requires i < |cs|
    ensures var at := if cs[i].isBeacon then BeaconsBefore(cs, i) else i - BeaconsBefore(cs, i);
            0 <= at < |Pick(cs, cs[i].isBeacon)| && Pick(cs, cs[i].isBeacon)[at] == cs[i]
  {
    BeaconsBeforeBound(cs, i);
    if i > 0 {
      PickAt(cs[1..], i - 1);
      BeaconsBeforeTail(cs, i);
    }
  }

  /** Beacons first, and otherwise the given order: every configuration is started
      once, at its Position. */
  lemma StartOrderIsStable(cs: seq<NodeConfig>)
    ensures |StartOrder(cs)| == |cs| && multiset(StartOrder(cs)) == multiset(cs)
    ensures forall i :: 0 <= i < |cs| ==> Position(cs, i) < |cs| && StartOrder(cs)[Position(cs, i)] == cs[i]
    ensures forall i, j :: 0 <= i < j < |cs| && cs[i].isBeacon == cs[j].isBeacon ==> Position(cs, i) < Position(cs, j)
  {
    PickMultiset(cs);
    assert |multiset(StartOrder(cs))| == |multiset(cs)|;
    forall i | 0 <= i < |cs| ensures Position(cs, i) < |cs| && StartOrder(cs)[Position(cs, i)] == cs[i] {
      PickAt(cs, i);
    }
    forall i, j | 0 <= i < j < |cs| && cs[i].isBeacon == cs[j].isBeacon ensures Position(cs, i) < Position(cs, j) {
      RanksGrow(cs, i, j);
    }
  }

  lemma {:induction false} RanksGrow(cs: seq<NodeConfig>, i: nat, j: nat)
    requires i < j < |cs|
    ensures BeaconsBefore(cs, j) >= BeaconsBefore(cs, i) + (if cs[i].isBeacon then 1 else 0)
    ensures j - BeaconsBefore(cs, j) >= i - BeaconsBefore(cs, i) + (if cs[i].isBeacon then 0 else 1)
  {
    if j > i + 1 { RanksGrow(cs, i, j - 1); }
  }

  lemma {:induction false} BeaconsBeforeInOrder(cs: seq<NodeConfig>, k: nat)
    requires k <= |StartOrder(cs)|
    ensures BeaconsBefore(StartOrder(cs), k) == if k < |Pick(cs, true)| then k else |Pick(cs, true)|
  {
    PickAll(cs, true);
    PickAll(cs, false);
    if k > 0 { BeaconsBeforeInOrder(cs, k - 1); }
  }

  /** A configuration that loads successfully into an empty network starts its
      nodes beacons first: the k-th process has the k-th identity and is told the
      beacons before it, which are all of them from the last beacon on, unless the
      flags of its node name others. */
  lemma LoadStartsBeaconsFirst(s: State, conf: NetConfig, envs: nat -> AddEnv, codes: nat -> int)
    requires WellFormed(s) && AllAllocated(s, conf.nodes) && s.nodes == map[] && s.beacons == []
    requires LoadConfig(s, conf, envs, codes).err.None?
    ensures var s1, s' := WithNetDefaults(s, conf), LoadConfig(s, conf, envs, codes).s;
            var order, nb := StartOrder(conf.nodes), |Pick(conf.nodes, true)|;
            && |s'.procs| == |s.procs| + |order| && |s'.beacons| == nb && AllAllocated(s1, order)
            && (forall k :: 0 <= k < |order| ==> StartedInOrder(s1, s', order, k))
            && (forall k :: 0 <= k <= |order| ==> BeaconsBefore(order, k) == if k < nb then k else nb)
  {
    hide AddAll, NonePaused, AddNode, StartedInOrder, ValidConfigFile;
    var order, nb := StartOrder(conf.nodes), |Pick(conf.nodes, true)|;
    StartOrderAllocated(s, conf.nodes);
    OrderHasCerts(s.site, conf);
    var s1 := WithNetDefaults(s, conf);
    NoNodesAgree(s1);
    AddAllStarts(s1, order, envs);
    forall k | 0 <= k <= |order| ensures BeaconsBefore(order, k) == if k < nb then k else nb {
      BeaconsBeforeInOrder(conf.nodes, k);
    }
  }

  lemma OrderHasCerts(site: Site, conf: NetConfig)
    requires ValidConfig(site, conf)
    ensures forall i :: 0 <= i < |StartOrder(conf.nodes)| ==> StartOrder(conf.nodes)[i].cert != ""
  {
    hide ValidConfigFile;
    PickElements(conf.nodes, true);
    PickElements(conf.nodes, false);
    forall i | 0 <= i < |StartOrder(conf.nodes)| ensures StartOrder(conf.nodes)[i].cert != "" {
      assert StartOrder(conf.nodes)[i] in conf.nodes;
    }
  }

  /** No node is given itself as a beacon to bootstrap from, given that no two configurations have the
      same identity. */
  lemma NoneBootstrapsFromItself(s: State, s': State, cs: seq<NodeConfig>, k: nat, i: nat)
    requires s.beacons == [] && k < |cs| && AllAllocated(s, cs) && forall m :: 0 <= m < |cs| ==> StartedInOrder(s, s', cs, m)
    requires forall m, n :: 0 <= m < n < |cs| ==> s.site.idOf(cs[m].cert) != s.site.idOf(cs[n].cert)
    requires i < BeaconsBefore(cs, k)
    ensures i < |s'.beacons| && |s.procs| + k < |s'.procs| && s'.beacons[i].id != s'.procs[|s.procs| + k].id
  {
    hide BootstrapsFrom;
    var m := BeaconAt(cs, k, i);
    assert StartedInOrder(s, s', cs, m) && StartedInOrder(s, s', cs, k);
  }

  lemma {:induction false} BeaconAt(cs: seq<NodeConfig>, k: nat, i: nat) returns (m: nat)
    requires k <= |cs| && i < BeaconsBefore(cs, k)
    ensures m < k && cs[m].isBeacon && BeaconsBefore(cs, m) == i
  {
    if cs[k - 1].isBeacon && BeaconsBefore(cs, k - 1) == i {
      m := k - 1;
    } else {
      m := BeaconAt(cs, k - 1, i);
    }
  }
}
