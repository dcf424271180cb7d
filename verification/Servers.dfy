/** The control server (server/server.go) and the network it holds (server/network.go).
    A method is one stretch that nothing else can interrupt. Most requests are one stretch,
    under s.mu. A request that takes node infos is several: it holds s.mu from its first to
    its last stretch, but the goroutine of a LoadSnapshot, which needs s.mu only at its end,
    may move in between. Serve takes any number of stretches, in any order. */
module Servers {
  import opened Common
  import opened Strings
  import opened Flags
  import opened Network
  import opened Runs
  import opened BeaconSet
  import opened InfoCache
  import opened InfoResults
  import opened NodeResults

  /** localNetwork of server/network.go: the network it runs, the address of its node infos,
      the subnets it last saw, and the goroutine that LoadSnapshot has started for it, until
      that has completed. */
  datatype Runner = Runner(nw: Option<State>, field: nat, subnets: seq<string>, goroutine: Option<Phase>)

  /** The node infos of the cluster info are those of a localNetwork, by reference. */
  datatype ClusterInfo = ClusterInfo(
    healthy: bool, chainsHealthy: bool, nodeNames: seq<string>, nodeInfos: nat, subnets: seq<string>)

  /** The address of the nil map, into which nothing is written. */
  const NIL: nat := 0

  const NEW_CLUSTER := ClusterInfo(false, false, [], NIL, [])

  /** What the goroutine and the requests about nodes share. */
  function RaceOf(n: Runner, maps: seq<InfoMap>): Race
    requires n.nw.Some?
  {
    Race(n.nw.value, maps, n.field, n.subnets, if n.goroutine.Some? then n.goroutine.value else Finished(None))
  }

  /** What a request does at its end, besides taking the infos. */
  datatype End = NodeEnd | HealthEnd | ClusterEnd

  /** A request in progress. */
  datatype Request = Request(q: Req, end: End)

  /** What it takes to make a network: a new one with some flag maps, and a configuration.
      No ready network means that it could not even be prepared. */
  datatype Launch = Launch(site: Site, rootDir: string, store: seq<FlagMap>, conf: NetConfig,
                           envs: nat -> AddEnv, codes: nat -> int, prepared: bool)

  function Ground(l: Launch): State {
    NewNetwork(l.site, l.rootDir).(store := l.store)
  }

  /** A network is made empty, with the flag maps of its configuration. */
  lemma GroundIsEmpty(l: Launch)
    ensures var s := Ground(l);
            && s.nodes == map[] && s.beacons == [] && s.procs == [] && !s.stopped && s.site == l.site && s.rootDir == l.rootDir
            && s.store == l.store && s.netFlags == map[] && s.files == map[] && s.binaryPath == ""
  {
  }

  ghost predicate Proper(l: Launch) {
    AllAllocated(Ground(l), l.conf.nodes)
  }

  /** No process of a network is running. */
  ghost predicate AllStopped(s: State) {
    forall p :: 0 <= p < |s.procs| ==> s.procs[p].exit.Some?
  }

  /** A network that does not come up leaves no process behind, one that does is sound. */
  lemma LaunchFacts(l: Launch)
    requires Proper(l)
    ensures var o := LoadConfig(Ground(l), l.conf, l.envs, l.codes);
            Inv(o.s) && !o.s.stopped && (o.err.Some? ==> AllStopped(o.s))
  {
    hide AddAll, StartOrder, ValidConfig, StopAll, Owned;
    var s := Ground(l);
    assert Inv(s) by { InvOfNew(s); }
    LoadKeepsInv(s, l.conf, l.envs, l.codes);
    if ValidConfig(s.site, l.conf) {
      StartOrderAllocated(s, l.conf.nodes);
      var s1 := WithNetDefaults(s, l.conf);
      AddAllKeepsLatch(s1, StartOrder(l.conf.nodes), l.envs);
      InvSame(s, s1);
      AddAllKeepsInv(s1, StartOrder(l.conf.nodes), l.envs);
      var added := AddAll(s1, StartOrder(l.conf.nodes), l.envs);
      StopAllKeepsInv(added.s, l.codes);
      StopAllKeepsRest(added.s, l.codes);
    }
  }

  lemma InvOfNew(s: State)
    requires s.nodes == map[] && s.procs == []
    ensures Inv(s)
  {
  }

  lemma InvSame(s: State, r: State)
    requires Inv(s) && r.nodes == s.nodes && r.procs == s.procs && r.store == s.store
    ensures Inv(r)
  {
  }

  lemma StopAllKeepsRest(s: State, codes: nat -> int)
    requires WellFormed(s)
    ensures var r := StopAll(s, codes).s; r.stopped == s.stopped && |r.procs| == |s.procs| && r.nodes == map[]
  {
  }

  // ---------- what installing does to a network ----------

  /** The steps that installing subnets and blockchains is made of. */
  predicate IsWork(op: Op) {
    op.NewFlags? || op.AddUnchecked? || op.Restart? || op.SetFlag? || op.SetFile?
  }

  lemma WorkKeepsOpen(s: State, op: Op)
    requires Inv(s) && Legal(s, op) && !s.stopped && (IsWork(op) || op.Add? || op.Exit? || op.Remove? || op.Pause? || op.Resume? || op.Save?)
    ensures !Do(s, op).stopped
  {
    hide AddNode, OverriddenFlags, Pinned, WithoutId, Owned, StopAll, RestartNode, ResumeNode;
    match op
    case Add(c, e) => AddNodeOnlyAdds(s, c, e);
    case AddUnchecked(c, e) => AddNodeOnlyAdds(s, c, e);
    case Restart(name, o, code, e) => RestartKeepsOpen(s, name, o, code, e);
    case Resume(name, e) => ResumeKeepsOpen(s, name, e);
    case Save(proceeds, codes) => StopAllKeepsRest(s, codes);
    case _ =>
  }

  lemma RestartKeepsOpen(s: State, name: string, o: Overrides, code: int, e: AddEnv)
    requires WellFormed(s)
    ensures RestartNode(s, name, o, code, e).s.stopped == s.stopped
  {
    hide AddNode, OverriddenFlags, Pinned, WithoutId;
    if name in s.nodes {
      var s1 := Overridden(s, name, o);
      var c := RestartConfig(s1.nodes[name], o);
      if s1.nodes[name].paused { AddNodeOnlyAdds(s1, c, e); }
      else { AddNodeOnlyAdds(RemoveNode(s1, name, code).s, c, e); }
    }
  }

  lemma ResumeKeepsOpen(s: State, name: string, e: AddEnv)
    requires WellFormed(s)
    ensures ResumeNode(s, name, e).s.stopped == s.stopped
  {
    hide AddNode, Pinned;
    if name in s.nodes {
      var a := s.nodes[name].cfg.flags.value;
      AddNodeOnlyAdds(WriteFlags(s, a, PinnedFor(s.store[a], s.nodes[name])), s.nodes[name].cfg, e);
    }
  }

  /** The network after some work on it. */
  function Worked(s: State, ops: seq<Op>): (r: State)
    requires Inv(s) && !s.stopped
    ensures Inv(r) && !r.stopped
    decreases |ops|
  {
    hide Do, Inv;
    if ops == [] then s
    else if IsWork(ops[0]) && (InvIsWellFormed(s); Legal(s, ops[0])) then
      OpKeepsInv(s, ops[0]);
      WorkKeepsOpen(s, ops[0]);
      Worked(Do(s, ops[0]), ops[1..])
    else Worked(s, ops[1..])
  }

  /** If all of the work can be done, that is what is done. */
  lemma {:induction false} WorkedMeans(s: State, ops: seq<Op>)
    requires Inv(s) && !s.stopped && Runs.Possible(s, ops) && forall i :: 0 <= i < |ops| ==> IsWork(ops[i])
    ensures Worked(s, ops) == Run(s, ops)
    decreases |ops|
  {
    hide Do, Owned;
    if ops != [] {
      OpKeepsInv(s, ops[0]);
      WorkKeepsOpen(s, ops[0]);
      WorkedMeans(Do(s, ops[0]), ops[1..]);
    }
  }

  lemma InvIsWellFormed(s: State)
    requires Inv(s)
    ensures WellFormed(s)
  {
  }

  /** Stopped for good: the latch is closed, then the nodes are removed. */
  function Ended(s: State, codes: nat -> int): State
    requires WellFormed(s)
  {
    StopAll(s.(stopped := true), codes).s
  }

  lemma EndedFacts(s: State, codes: nat -> int)
    requires Inv(s)
    ensures AllStopped(Ended(s, codes)) && Ended(s, codes).nodes == map[] && Ended(s, codes).stopped
  {
    hide Owned, StopAll;
    InvSame(s, s.(stopped := true));
    StopAllKeepsInv(s.(stopped := true), codes);
    StopAllKeepsRest(s.(stopped := true), codes);
  }

  // ---------- what is safe ----------

  /** The flags of the cluster info are only raised while there is a network. */
  ghost predicate Lawful(network: Option<Runner>, cluster: Option<ClusterInfo>, asyncErrs: seq<Error>) {
    && (network.Some? ==> cluster.Some?)
    && (cluster.Some? && (cluster.value.healthy || cluster.value.chainsHealthy) ==> network.Some?)
    && |asyncErrs| <= 1
  }

  /** A network that is held is there, sound and not stopped. */
  ghost predicate Sound(network: Option<Runner>) {
    network.Some? ==> network.value.nw.Some? && Inv(network.value.nw.value) && !network.value.nw.value.stopped
  }

  /** Every network that was made is the one that is held, or given up with no process left. */
  ghost predicate Accounted(network: Option<Runner>, retired: seq<State>, made: nat) {
    && made == |retired| + (if network.Some? && network.value.nw.Some? then 1 else 0)
    && forall i :: 0 <= i < |retired| ==> AllStopped(retired[i])
  }

  /** Addresses of info maps exist, and none of a network is that of the nil map. */
  ghost predicate Addressed(network: Option<Runner>, cluster: Option<ClusterInfo>, maps: seq<InfoMap>) {
    && |maps| > 0
    && (network.Some? ==> 0 < network.value.field < |maps|)
    && (cluster.Some? ==> cluster.value.nodeInfos < |maps|)
  }

  /** A request in progress has a network, and what it is about to do can be done. */
  ghost predicate InProgress(network: Option<Runner>, q: Req)
  {
    && network.Some? && network.value.nw.Some? && WellFormed(network.value.nw.value)
    && (var s := network.value.nw.value;
        match q
        case Operating(op, _) => NodeOp(op) && Legal(s, op)
        case Writing(rest, _) => rest <= s.nodes.Keys
        case Done(_, _) => false
        case Failed(_) => false
        case _ => true)
  }

  ghost predicate NamesTaken(cluster: Option<ClusterInfo>, names: set<string>) {
    cluster.Some? && StrictlySorted(cluster.value.nodeNames) && Elements(cluster.value.nodeNames) == names
  }

  /** What the server caches is what the network is: the names are the sorted names of the
      nodes, and every node is described as it is. */
  ghost predicate CacheAgrees(network: Option<Runner>, cluster: Option<ClusterInfo>, maps: seq<InfoMap>) {
    && network.Some? && cluster.Some? && network.value.nw.Some?
    && (var s, c := network.value.nw.value, cluster.value;
        && StrictlySorted(c.nodeNames) && Elements(c.nodeNames) == s.nodes.Keys
        && Right(RaceOf(network.value, maps), c.nodeInfos, {}))
  }

  /** So every node is in the cache, under its name, and described as it is. */
  lemma CacheMeans(network: Option<Runner>, cluster: Option<ClusterInfo>, maps: seq<InfoMap>)
    requires CacheAgrees(network, cluster, maps)
    ensures var s, infos := network.value.nw.value, maps[cluster.value.nodeInfos];
            && infos.Keys == s.nodes.Keys
            && (forall n :: n in s.nodes ==>
                  n in cluster.value.nodeNames && n in infos && Describes(s.store, s.nodes[n], infos[n]))
  {
    var s, infos := network.value.nw.value, maps[cluster.value.nodeInfos];
    forall n | n in s.nodes ensures n in cluster.value.nodeNames && n in infos {
      assert n in s.nodes.Keys && n in Elements(cluster.value.nodeNames);
    }
    forall n | n in s.nodes ensures Describes(s.store, s.nodes[n], InfoOf(s.store, s.nodes[n])) {
      InfoDescribes(s.store, s.nodes[n]);
    }
    hide InfoOf, Describes;
    assert forall n :: n in infos ==> n in s.nodes.Keys;
  }

  /** What the outside answers while the server waits for healthy nodes: whether they answer
      as healthy, and the subnets that the platform chain knows. */
  datatype Poll = Poll(healthy: bool, subnets: Option<seq<string>>)

  /** What waiting for healthy nodes reports: they do not answer or have exited, the tracked
      subnets of one are not a string, there are none, or the platform chain does not answer. */
  ghost predicate AwaitedAs(s: State, p: Poll, err: Option<Error>) {
    if Ailing(s, p.healthy) then err == Some(Unhealthy)
    else if !AllReadable(s) then err == Some(WrongFlagType)
    else if s.nodes == map[] then err == Some(NoNodes)
    else if p.subnets.None? then err == Some(ChainUnavailable)
    else err.None?
  }

  /** An installation as the server sees it. */
  datatype Install = Install(before: Poll, work: seq<Op>, err: Option<Error>, after: Poll)

  /** What an installation makes of a network, and what it reports: nothing is done before the
      nodes are healthy, and it is done only when they are healthy again. */
  ghost predicate InstalledAs(s: State, any: bool, i: Install, r: State, err: Option<Error>)
    requires Inv(s) && !s.stopped
  {
    if !any then r == s && err.None?
    else if !AwaitedAs(s, i.before, None) then r == s && AwaitedAs(s, i.before, err)
    else r == Worked(s, i.work) && if i.err.Some? then err == i.err else AwaitedAs(r, i.after, err)
  }

  /** What making a network comes to: it is prepared, its configuration loads, and the tracked
      subnets of all its nodes are strings. */
  ghost predicate LaunchedAs(l: Launch, nw: Option<State>, err: Option<Error>)
    requires Proper(l)
  {
    var o := LoadConfig(Ground(l), l.conf, l.envs, l.codes);
    if !l.prepared then nw.None? && err == Some(BadRequest)
    else if o.err.Some? then nw.None? && err == o.err
    else nw == Some(o.s) && err == if AllReadable(o.s) then None else Some(WrongFlagType)
  }

  /** A stretch, with everything that the outside decides in it: a request or the next step of
      the one in progress, a round of a waiting one, a step of a goroutine, the exit of a
      process. */
  datatype Step =
    | StartStep(valid: bool, logger: bool, launch: Launch, any: bool, install: Install, codes: nat -> int)
    | LoadSnapshotStep(valid: bool, logger: bool, launch: Launch, codes: nat -> int)
    | MoveStep(move: Move)
    | CompleteStep(codes: nat -> int)
    | OrphanStep(late: Option<Error>, codes: nat -> int)
    | CreateBlockchainsStep(valid: bool, named: seq<string>, install: Install, codes: nat -> int)
    | CreateSubnetsStep(valid: bool, any: bool, install: Install, codes: nat -> int)
    | HealthStep(poll: Poll)
    | WaitForHealthyStep(expired: bool, takeError: bool)
    | StopStep(codes: nat -> int)
    | SaveSnapshotStep(name: string, taken: bool, written: bool, codes: nat -> int)
    | AddNodeStep(name: string, flags: FlagMap, binaryPath: string, files: ConfigFiles, e: AddEnv)
    | RemoveNodeStep(name: string, code: int)
    | PauseNodeStep(name: string, code: int)
    | ResumeNodeStep(name: string, e: AddEnv)
    | RestartNodeStep(name: string, o: Overrides, code: int, e: AddEnv)
    | RequestStep(name: string)
    | ExitStep(pid: nat, code: int)

  class Server {
    var network: Option<Runner>
    var cluster: Option<ClusterInfo>
    var maps: seq<InfoMap>           // every map of node infos; its index is its address
    var asyncErrs: seq<Error>        // a channel of capacity 1
    var orphans: nat                 // goroutines that have not completed, of networks given up
    var request: Option<Request>     // the request that holds s.mu, between two of its stretches
    ghost var calm: bool             // the goroutine can do no harm to the request in progress
    ghost var made: nat              // how many networks were made
    ghost var retired: seq<State>    // those that were given up

    /** What holds between any two stretches: the server is safe, its network is sound, and
        every other network ever made has been given up and has no process left. */
    ghost predicate Valid()
      reads this
    {
      && Lawful(network, cluster, asyncErrs) && Sound(network) && Accounted(network, retired, made)
      && Addressed(network, cluster, maps)
      && (request.Some? ==> InProgress(network, request.value.q) && (calm ==> Safe(Together())))
      && (request.Some? && request.value.q.Storing? ==> NamesTaken(cluster, request.value.q.names))
    }

    /** The goroutine and the request in progress. */
    ghost function Together(): Duo
      reads this
      requires network.Some? && network.value.nw.Some? && request.Some?
    {
      Duo(RaceOf(network.value, maps), request.value.q)
    }

    constructor ()
      ensures Valid() && network.None? && cluster.None? && asyncErrs == [] && request.None? && orphans == 0
    {
      network, cluster, maps, asyncErrs, orphans, request := None, None, [map[]], [], 0, None;
      calm, made, retired := false, 0, [];
    }

    // ---------- parts of requests ----------

    /** A send on the error channel; it would block if the channel were full. */
    method Send(e: Error)
      requires |asyncErrs| < 1
      modifies this`asyncErrs
      ensures asyncErrs == old(asyncErrs) + [e]
    {
      asyncErrs := asyncErrs + [e];
    }

    /** stopAndRemoveNetwork: an error that nobody took makes room for the new one. A goroutine
        of the network is left to itself. */
    method StopAndRemoveNetwork(err: Option<Error>, codes: nat -> int)
      requires |asyncErrs| <= 1
      requires network.Some? && network.value.nw.Some? ==> Inv(network.value.nw.value)
      modifies this`network, this`cluster, this`asyncErrs, this`orphans, this`retired
      ensures network.None?
      ensures asyncErrs == if err.Some? then [err.value] else []
      ensures cluster == if old(cluster).Some? then Some(old(cluster).value.(healthy := false, chainsHealthy := false)) else None
      ensures orphans == old(orphans) + if old(network).Some? && old(network).value.goroutine.Some? then 1 else 0
      ensures if old(network).Some? && old(network).value.nw.Some?
              then retired == old(retired) + [Ended(old(network).value.nw.value, codes)]
                   && AllStopped(Ended(old(network).value.nw.value, codes))
              else retired == old(retired)
    {
      hide Inv, Ended, AllStopped;
      if |asyncErrs| > 0 {
        asyncErrs := asyncErrs[1..];
      }
      if err.Some? {
        Send(err.value);
      }
      if network.Some? {
        StopRunner(codes);
        if network.value.goroutine.Some? { orphans := orphans + 1; }
      }
      if cluster.Some? {
        cluster := Some(cluster.value.(healthy := false, chainsHealthy := false));
      }
      network := None;
    }

    /** Stop of server/network.go. */
    method StopRunner(codes: nat -> int)
      requires network.Some? && (network.value.nw.Some? ==> Inv(network.value.nw.value))
      modifies this`network, this`retired
      ensures network.Some? && network.value.goroutine == old(network).value.goroutine
      ensures if old(network).value.nw.Some?
              then retired == old(retired) + [Ended(old(network).value.nw.value, codes)]
                   && AllStopped(Ended(old(network).value.nw.value, codes))
              else retired == old(retired)
    {
      hide Ended, AllStopped, Owned;
      if network.value.nw.Some? {
        var s := network.value.nw.value;
        EndedFacts(s, codes);
        var ended := Ended(s, codes);
        network := Some(network.value.(nw := Some(ended)));
        retired := retired + [ended];
      }
    }

    /** updateNodeInfo while no goroutine can interfere: the infos are made anew, node by node
        in any order; a flag that is not a string ends it half way. */
    method UpdateNodeInfo() returns (err: Option<Error>)
      requires network.Some? && network.value.nw.Some? && |maps| > 0
      modifies this`network, this`maps
      ensures network.Some? && network.value == old(network).value.(field := network.value.field)
      ensures |maps| >= |old(maps)| && (network.value.field == old(network).value.field || 0 < network.value.field < |maps|)
      ensures err.None? ==> Right(RaceOf(network.value, maps), network.value.field, {}) && 0 < network.value.field
      ensures var s := network.value.nw.value;
              err == if s.stopped then Some(NetworkStopped) else if AllReadable(s) then None else Some(WrongFlagType)
    {
      hide TrackedFlag, InfoOf, Unreadable;
      var s := network.value.nw.value;
      if s.stopped { return Some(NetworkStopped); }
      var infos: InfoMap := map[];
      var rest := s.nodes.Keys;
      var field := |maps|;
      while rest != {}
        invariant network == old(network) && maps == old(maps)
        invariant rest <= s.nodes.Keys && infos.Keys == s.nodes.Keys - rest
        invariant forall n :: n in infos ==> n in s.nodes && infos[n] == InfoOf(s.store, s.nodes[n])
        invariant forall n :: n in s.nodes && n !in rest ==> !Unreadable(s.store, s.nodes[n])
        decreases rest
      {
        var n :| n in rest;
        rest := rest - {n};
        InfoDescribes(s.store, s.nodes[n]);
        if TrackedFlag(s.store, s.nodes[n]).Err? {
          maps, network := maps + [infos], Some(network.value.(field := field));
          return Some(TrackedFlag(s.store, s.nodes[n]).error);
        }
        infos := infos[n := InfoOf(s.store, s.nodes[n])];
      }
      maps, network := maps + [infos], Some(network.value.(field := field));
      assert forall n :: n in s.nodes ==> n in infos.Keys;
      return None;
    }

    /** The node part of the cluster info is taken from the network, in one stretch. */
    method TakeNodeInfos()
      requires network.Some? && cluster.Some? && network.value.field < |maps|
      modifies this`cluster
      ensures cluster.Some?
      ensures cluster.value == old(cluster).value.(nodeNames := cluster.value.nodeNames, nodeInfos := network.value.field)
      ensures StrictlySorted(cluster.value.nodeNames) && Elements(cluster.value.nodeNames) == maps[network.value.field].Keys
    {
      var names := SortedList(maps[network.value.field].Keys);
      cluster := Some(cluster.value.(nodeNames := names, nodeInfos := network.value.field));
    }

    /** updateClusterInfo, in one stretch; a stop may have come in between. */
    method UpdateClusterInfo()
      requires network.Some? ==> cluster.Some? && network.value.field < |maps|
      modifies this`cluster
      ensures network.None? ==> cluster == old(cluster)
      ensures network.Some? ==>
                && cluster.Some? && cluster.value.healthy && cluster.value.chainsHealthy
                && StrictlySorted(cluster.value.nodeNames) && Elements(cluster.value.nodeNames) == maps[network.value.field].Keys
                && cluster.value.nodeInfos == network.value.field && cluster.value.subnets == network.value.subnets
    {
      if network.None? { return; }
      cluster := Some(cluster.value.(healthy := true));
      TakeNodeInfos();
      cluster := Some(cluster.value.(chainsHealthy := true, subnets := network.value.subnets));
    }

    /** awaitHealthyAndUpdateNetworkInfo of a request, under lc.lock. It looks at the first node,
        so it fails badly on a network without nodes, which is always healthy. */
    method AwaitHealthy(p: Poll) returns (err: Option<Error>)
      requires network.Some? && Sound(network) && |maps| > 0 && 0 < network.value.field < |maps|
      modifies this`network, this`maps
      ensures network.Some? && network.value == old(network).value.(field := network.value.field, subnets := network.value.subnets)
      ensures |maps| >= |old(maps)| && 0 < network.value.field < |maps|
      ensures AwaitedAs(network.value.nw.value, p, err)
      ensures err.None? ==> Right(RaceOf(network.value, maps), network.value.field, {}) && p.subnets == Some(network.value.subnets)
    {
      hide Owned, TrackedFlag, InfoOf, AllReadable, Healthy, Ailing;
      HealthyMeans(network.value.nw.value, p.healthy);
      if !Healthy(network.value.nw.value, p.healthy) { return Some(Unhealthy); }
      err := UpdateNodeInfo();
      if err.Some? { return; }
      var names := SortedList(maps[network.value.field].Keys);
      SortedEmpty(names, network.value.nw.value.nodes);
      assert maps[network.value.field].Keys == network.value.nw.value.nodes.Keys;
      if |names| == 0 { return Some(NoNodes); }
      if p.subnets.None? { return Some(ChainUnavailable); }
      network := Some(network.value.(subnets := p.subnets.value));
      return None;
    }

    /** Start or LoadSnapshot of server/network.go: the network is made. */
    method MakeNetwork(l: Launch) returns (err: Option<Error>)
      requires network.Some? && network.value.nw.None? && Proper(l) && Accounted(network, retired, made)
      requires |maps| > 0 && 0 < network.value.field < |maps|
      modifies this`network, this`retired, this`made, this`maps
      ensures network.Some? && network.value.goroutine == old(network).value.goroutine
      ensures |maps| >= |old(maps)| && 0 < network.value.field < |maps|
      ensures network.value.nw.Some? ==> Sound(network)
      ensures LaunchedAs(l, network.value.nw, err)
      ensures err.None? ==> Sound(network) && Right(RaceOf(network.value, maps), network.value.field, {})
      ensures Accounted(network, retired, made)
    {
      hide Owned, AllStopped, LoadConfig, TrackedFlag, InfoOf, AllReadable;
      if !l.prepared { return Some(BadRequest); }
      LaunchFacts(l);
      var o := LoadConfig(Ground(l), l.conf, l.envs, l.codes);
      made := made + 1;
      if o.err.Some? {
        retired := retired + [o.s];
        return o.err;
      }
      network := Some(network.value.(nw := Some(o.s)));
      err := UpdateNodeInfo();
    }

    /** CreateChains and CreateSubnets of server/network.go, under lc.lock; without specs there
        is nothing to do. */
    method Create(any: bool, i: Install) returns (err: Option<Error>)
      requires network.Some? && Sound(network) && |maps| > 0 && 0 < network.value.field < |maps|
      modifies this`network, this`maps
      ensures network.Some? && Sound(network) && network.value.goroutine == old(network).value.goroutine
      ensures |maps| >= |old(maps)| && 0 < network.value.field < |maps|
      ensures InstalledAs(old(network).value.nw.value, any, i, network.value.nw.value, err)
      ensures err.None? && any ==> Right(RaceOf(network.value, maps), network.value.field, {}) && i.after.subnets == Some(network.value.subnets)
      ensures !any ==> network == old(network) && maps == old(maps)
    {
      hide Inv, Worked, Right, Ailing, AllReadable;
      if !any { return None; }
      err := AwaitHealthy(i.before);
      if err.Some? { return; }
      network := Some(network.value.(nw := Some(Worked(network.value.nw.value, i.work))));
      if i.err.Some? { return i.err; }
      err := AwaitHealthy(i.after);
    }

    // ---------- requests ----------

    /** Start. */
    method Start(valid: bool, logger: bool, l: Launch, any: bool, i: Install, codes: nat -> int) returns (err: Option<Error>)
      requires Valid() && request.None? && Proper(l)
      modifies this
      ensures Valid() && request.None?
      ensures old(network).Some? ==> err == Some(AlreadyBootstrapped) && network == old(network) && cluster == old(cluster)
      ensures old(network).None? && err.Some? ==> network.None?
      ensures err.None? ==> CacheAgrees(network, cluster, maps) && cluster.value.healthy && cluster.value.chainsHealthy
      ensures old(network).None? && !valid ==> err == Some(BadRequest)
      ensures old(network).None? && valid && !logger ==> err == Some(DirectoryFailed)
      ensures old(network).None? && valid && logger ==>
                exists nw, first ::
                  LaunchedAs(l, nw, first)
                  && if first.Some? then err == first
                     else nw.Some? && Inv(nw.value) && !nw.value.stopped
                          && exists r :: InstalledAs(nw.value, any, i, r, err)
                                         && (err.None? ==> network.value.nw == Some(r) && (any ==> i.after.subnets == Some(cluster.value.subnets)))
    {
      hide Owned, AllStopped, Proper, StrictlySorted, Right, WellFormed, LaunchedAs, InstalledAs;
      if network.Some? { return Some(AlreadyBootstrapped); }
      if !valid { return Some(BadRequest); }
      cluster := Some(NEW_CLUSTER);
      if !logger { return Some(DirectoryFailed); }
      maps, network := maps + [map[]], Some(Runner(None, |maps|, [], None));
      err := MakeNetwork(l);
      ghost var nw, first := network.value.nw, err;
      assert LaunchedAs(l, nw, first);
      if err.Some? {
        StopAndRemoveNetwork(None, codes);
        return;
      }
      err := Create(any, i);
      assert InstalledAs(nw.value, any, i, network.value.nw.value, err);
      if err.Some? {
        StopAndRemoveNetwork(err, codes);
        return;
      }
      UpdateClusterInfo();
      RightKeys(RaceOf(network.value, maps), network.value.field);
    }

    /** LoadSnapshot; if it succeeds, a goroutine is left that has yet to begin. */
    method LoadSnapshot(valid: bool, logger: bool, l: Launch, codes: nat -> int) returns (err: Option<Error>)
      requires Valid() && request.None? && Proper(l)
      modifies this
      ensures Valid() && request.None?
      ensures old(network).Some? ==> err == Some(AlreadyBootstrapped) && network == old(network) && cluster == old(cluster)
      ensures old(network).None? && err.Some? ==> network.None?
      ensures err.None? ==> network.Some? && network.value.goroutine == Some(Queued) && cluster == Some(NEW_CLUSTER)
      ensures old(network).None? && !(valid && logger) ==> err == Some(DirectoryFailed)
      ensures old(network).None? && valid && logger ==>
                exists nw :: LaunchedAs(l, nw, err) && (err.None? ==> network.value.nw == nw)
    {
      hide Owned, AllStopped, Proper, Right, LaunchedAs;
      if network.Some? { return Some(AlreadyBootstrapped); }
      if !valid || !logger { return Some(DirectoryFailed); }
      maps, network := maps + [map[]], Some(Runner(None, |maps|, [], None));
      cluster := Some(NEW_CLUSTER);
      err := MakeNetwork(l);
      assert LaunchedAs(l, network.value.nw, err);
      if err.Some? {
        StopAndRemoveNetwork(None, codes);
        return;
      }
      network := Some(network.value.(goroutine := Some(Queued)));
    }

    /** CreateBlockchains. The subnets named must be known. What it ends with is a request in
        progress, which has yet to take the infos; it waits for lc.lock. */
    method CreateBlockchains(valid: bool, named: seq<string>, i: Install, codes: nat -> int) returns (err: Option<Error>)
      requires Valid() && request.None? && !Busy()
      modifies this
      ensures Valid()
      ensures old(network).None? ==> err == Some(NotBootstrapped) && cluster == old(cluster)
      ensures err.None? ==> request == Some(Request(Naming, ClusterEnd)) && (calm <==> Calm(RaceOf(network.value, maps)))
      ensures err.Some? ==> request.None?
      ensures old(network).Some? && valid && (exists k :: 0 <= k < |named| && named[k] !in old(cluster).value.subnets) ==>
                err == Some(UnknownSubnet) && network == old(network) && cluster == old(cluster)
      ensures old(network).Some? && !valid ==> err == Some(BadRequest) && network == old(network) && cluster == old(cluster)
      ensures old(network).Some? && valid && (forall k :: 0 <= k < |named| ==> named[k] in old(cluster).value.subnets) ==>
                old(network).value.nw.Some? && Inv(old(network).value.nw.value) && !old(network).value.nw.value.stopped
                && exists r :: InstalledAs(old(network).value.nw.value, true, i, r, err) && (err.None? ==> network.Some? && network.value.nw == Some(r))
    {
      hide InstalledAs, Lawful, Sound, Accounted, Addressed, InProgress, Safe, Right, Calm;
      if network.None? { return Some(NotBootstrapped); }
      if !valid { return Some(BadRequest); }
      assert cluster.Some? by { NetworkHasCluster(network, cluster, asyncErrs); }
      if exists k :: 0 <= k < |named| && named[k] !in cluster.value.subnets { return Some(UnknownSubnet); }
      err := CreateAndUpdate(true, i, codes);
    }

    /** What both create requests do: the flags are lowered, to be raised again at the end; on
        a failure the network is given up. */
    method CreateAndUpdate(any: bool, i: Install, codes: nat -> int) returns (err: Option<Error>)
      requires Valid() && request.None? && network.Some? && !Busy()
      modifies this
      ensures Valid()
      ensures err.Some? ==> network.None? && asyncErrs == [err.value] && request.None?
      ensures err.None? ==> request == Some(Request(Naming, ClusterEnd)) && !cluster.value.healthy && !cluster.value.chainsHealthy
      ensures err.None? && any ==> (calm <==> Calm(RaceOf(network.value, maps)))
      ensures old(network).value.nw.Some? && Inv(old(network).value.nw.value) && !old(network).value.nw.value.stopped
              && exists r :: InstalledAs(old(network).value.nw.value, any, i, r, err) && (err.None? ==> network.Some? && network.value.nw == Some(r))
    {
      hide Owned, AllStopped, Right, Calm, WellFormed, InstalledAs;
      cluster := Some(cluster.value.(healthy := false, chainsHealthy := false));
      err := Create(any, i);
      assert InstalledAs(old(network).value.nw.value, any, i, network.value.nw.value, err);
      if err.Some? {
        StopAndRemoveNetwork(err, codes);
      } else {
        BeginTaking(ClusterEnd);
      }
    }

    /** A request has rebuilt the infos under lc.lock and is about to take them. */
    method BeginTaking(end: End)
      requires network.Some? && Sound(network)
      modifies this`request, this`calm
      ensures request == Some(Request(Naming, end)) && InProgress(network, Naming)
      ensures calm <==> Safe(Together())
    {
      hide Owned, Safe;
      request := Some(Request(Naming, end));
      calm := Safe(Together());
    }

    /** CreateSubnets. */
    method CreateSubnets(valid: bool, any: bool, i: Install, codes: nat -> int) returns (err: Option<Error>)
      requires Valid() && request.None? && !Busy()
      modifies this
      ensures Valid()
      ensures old(network).None? ==> err == Some(NotBootstrapped) && cluster == old(cluster)
      ensures err.None? ==> request == Some(Request(Naming, ClusterEnd))
      ensures err.None? && any ==> (calm <==> Calm(RaceOf(network.value, maps)))
      ensures err.Some? ==> request.None?
      ensures old(network).Some? && !valid ==> err == Some(BadRequest) && network == old(network) && cluster == old(cluster)
      ensures old(network).Some? && valid ==>
                old(network).value.nw.Some? && Inv(old(network).value.nw.value) && !old(network).value.nw.value.stopped
                && exists r :: InstalledAs(old(network).value.nw.value, any, i, r, err) && (err.None? ==> network.Some? && network.value.nw == Some(r))
    {
      hide InstalledAs, Lawful, Sound, Accounted, Addressed, InProgress, Safe, Right, Calm;
      if network.None? { return Some(NotBootstrapped); }
      if !valid { return Some(BadRequest); }
      err := CreateAndUpdate(any, i, codes);
    }

    /** Health; it ends as a request that has yet to take the infos. */
    method Health(p: Poll) returns (err: Option<Error>)
      requires Valid() && request.None? && !Busy()
      modifies this`network, this`maps, this`request, this`calm
      ensures Valid()
      ensures old(network).None? ==> err == Some(NotBootstrapped) && network.None?
      ensures err.None? ==> request == Some(Request(Naming, HealthEnd)) && (calm <==> Calm(RaceOf(network.value, maps)))
      ensures err.Some? ==> request.None?
      ensures old(network).Some? ==> network.Some? && network.value.nw == old(network).value.nw && network.value.nw.Some?
                                     && AwaitedAs(network.value.nw.value, p, err)
    {
      hide Owned, AllStopped, Right, Calm, AwaitedAs;
      if network.None? { return Some(NotBootstrapped); }
      err := AwaitHealthy(p);
      if err.Some? { return; }
      BeginTaking(HealthEnd);
    }

    /** One round of WaitForHealthy; expired says that its context has ended, and takeError
        which of two ready cases is taken. again says that another round follows. */
    method WaitForHealthyRound(expired: bool, takeError: bool) returns (err: Option<Error>, again: bool)
      requires Valid() && request.None?
      modifies this`asyncErrs
      ensures Valid()
      ensures err.None? && !again ==> network.Some? && cluster.Some? && cluster.value.chainsHealthy
      ensures again ==> err.None? && network.Some? && old(asyncErrs) == [] && !expired
      ensures asyncErrs == old(asyncErrs) || (err.Some? && asyncErrs == [] && old(asyncErrs) == [err.value])
      ensures cluster.None? ==> err == Some(NotBootstrapped)
      ensures cluster.Some? && cluster.value.chainsHealthy ==> err.None? && !again && asyncErrs == old(asyncErrs)
      ensures cluster.Some? && !cluster.value.chainsHealthy && old(asyncErrs) != [] && (takeError || !expired) ==>
                err == Some(old(asyncErrs)[0]) && asyncErrs == []
      ensures cluster.Some? && !cluster.value.chainsHealthy && (old(asyncErrs) == [] || (expired && !takeError)) ==>
                err == if expired then Some(ContextDone) else if network.None? then Some(NotBootstrapped) else None
    {
      hide Sound, Accounted, Addressed;
      again := false;
      if cluster.None? { return Some(NotBootstrapped), false; }
      if cluster.value.chainsHealthy { return None, false; }
      if |asyncErrs| > 0 && (takeError || !expired) {
        err := Some(asyncErrs[0]);
        asyncErrs := asyncErrs[1..];
        return;
      }
      if expired { return Some(ContextDone), false; }
      if network.None? { return Some(NotBootstrapped), false; }
      return None, true;
    }

    /** Stop, and the end of Run. */
    method Stop(codes: nat -> int)
      requires Valid() && request.None?
      modifies this
      ensures Valid() && network.None? && asyncErrs == [] && request.None?
    {
      hide Owned, AllStopped;
      StopAndRemoveNetwork(None, codes);
    }

    /** SaveSnapshot: the network is given up once it is saved. It waits for the lock of the
        network. */
    method SaveSnapshot(name: string, taken: bool, written: bool, codes: nat -> int) returns (err: Option<Error>)
      requires Valid() && request.None? && !Waits()
      modifies this
      ensures Valid() && request.None?
      ensures old(network).None? ==> err == Some(NotBootstrapped)
      ensures err.None? ==> network.None?
      ensures old(network).Some? && err.Some? ==>
                network.Some? && cluster == old(cluster)
                && network.value.nw == Some(Do(old(network).value.nw.value, Save(name != "" && !taken, codes)))
      ensures old(network).Some? && (name == "" || taken) ==> err == Some(BadSnapshotName) && network == old(network)
      ensures old(network).Some? && name != "" && !taken ==>
                old(network).value.nw.Some? && Inv(old(network).value.nw.value)
                && exists o :: StoppedAll(old(network).value.nw.value, codes, o)
                               && err == if o.err.Some? then o.err else if !written then Some(SnapshotIO) else None
    {
      hide StoppedAll, AllStopped, Do, StopAll, Owned;
      if network.None? { return Some(NotBootstrapped); }
      var s := network.value.nw.value;
      var op := Save(name != "" && !taken, codes);
      SaveRefused(s, codes);
      OpKeepsInv(s, op);
      WorkKeepsOpen(s, op);
      network := Some(network.value.(nw := Some(Do(s, op))));
      if name == "" || taken { return Some(BadSnapshotName); }
      StopAllMeans(s, codes);
      err := StopAll(s, codes).err;
      if err.Some? { return; }
      if !written { return Some(SnapshotIO); }
      StopAndRemoveNetwork(None, codes);
    }

    // ---------- requests about one node ----------

    /** A request about one node begins. */
    method BeginRequest(op: Op, locked: bool) returns (err: Option<Error>)
      requires Valid() && request.None? && NodeOp(op) && (network.Some? ==> Legal(network.value.nw.value, op))
      modifies this`request, this`calm
      ensures Valid()
      ensures network.None? ==> err == Some(NotBootstrapped) && request.None?
      ensures network.Some? ==> err.None? && request == Some(Request(Operating(op, locked), NodeEnd)) && (calm <==> Safe(Together()))
    {
      hide Owned, AllStopped, Safe;
      if network.None? { return Some(NotBootstrapped); }
      request := Some(Request(Operating(op, locked), NodeEnd));
      calm := Safe(Together());
      return None;
    }

    /** AddNode: the node's flags are a map of their own. */
    method AddNode(name: string, flags: FlagMap, binaryPath: string, files: ConfigFiles, e: AddEnv) returns (err: Option<Error>)
      requires Valid() && request.None?
      modifies this`network, this`request, this`calm
      ensures Valid()
      ensures old(network).None? ==> err == Some(NotBootstrapped) && request.None?
      ensures old(network).Some? ==>
                var s := Do(old(network).value.nw.value, NewFlags(flags));
                var c := NodeConfig(name, false, "", binaryPath, None, Some(|s.store| - 1), files);
                && network == Some(old(network).value.(nw := Some(s)))
                && request == Some(Request(Operating(Add(c, e), true), NodeEnd)) && (calm <==> Safe(Together()))
    {
      hide Owned, AllStopped, Safe;
      if network.None? { return Some(NotBootstrapped); }
      var s0 := network.value.nw.value;
      OpKeepsInv(s0, NewFlags(flags));
      var s := Do(s0, NewFlags(flags));
      network := Some(network.value.(nw := Some(s)));
      err := BeginRequest(Add(NodeConfig(name, false, "", binaryPath, None, Some(|s.store| - 1), files), e), true);
    }

    method RemoveNode(name: string, code: int) returns (err: Option<Error>)
      requires Valid() && request.None?
      modifies this`request, this`calm
      ensures Valid()
      ensures network.None? ==> err == Some(NotBootstrapped) && request.None?
      ensures network.Some? ==> request == Some(Request(Operating(Remove(name, code), true), NodeEnd)) && (calm <==> Safe(Together()))
    {
      err := BeginRequest(Remove(name, code), true);
    }

    method RestartNode(name: string, o: Overrides, code: int, e: AddEnv) returns (err: Option<Error>)
      requires Valid() && request.None?
      modifies this`request, this`calm
      ensures Valid()
      ensures network.None? ==> err == Some(NotBootstrapped) && request.None?
      ensures network.Some? ==> request == Some(Request(Operating(Restart(name, o, code, e), true), NodeEnd)) && (calm <==> Safe(Together()))
    {
      err := BeginRequest(Restart(name, o, code, e), true);
    }

    /** PauseNode and ResumeNode rebuild the infos without lc.lock. */
    method PauseNode(name: string, code: int) returns (err: Option<Error>)
      requires Valid() && request.None?
      modifies this`request, this`calm
      ensures Valid()
      ensures network.None? ==> err == Some(NotBootstrapped) && request.None?
      ensures network.Some? ==> request == Some(Request(Operating(Pause(name, code), false), NodeEnd)) && (calm <==> Safe(Together()))
    {
      err := BeginRequest(Pause(name, code), false);
    }

    method ResumeNode(name: string, e: AddEnv) returns (err: Option<Error>)
      requires Valid() && request.None?
      modifies this`request, this`calm
      ensures Valid()
      ensures network.None? ==> err == Some(NotBootstrapped) && request.None?
      ensures network.Some? ==> request == Some(Request(Operating(Resume(name, e), false), NodeEnd)) && (calm <==> Safe(Together()))
    {
      err := BeginRequest(Resume(name, e), false);
    }

    /** The goroutine holds lc.lock. */
    predicate Busy()
      reads this
    {
      network.Some? && network.value.goroutine.Some? && GoroutineHolds(network.value.goroutine.value)
    }

    /** The goroutine holds the lock of the network. */
    predicate Waits()
      reads this
    {
      network.Some? && network.value.goroutine == Some(Waiting)
    }

    /** What the goroutine holds while it rebuilds, and while it waits. */
    lemma LocksMean()
      requires network.Some?
      ensures Busy() <==> exists p :: network.value.goroutine == Some(p) && (p.Waiting? || p.Listing? || p.Copied? || p.Rebuilding?)
      ensures Waits() <==> exists p :: network.value.goroutine == Some(p) && p.Waiting?
    {
    }

    /** The request operates on the network; it waits for the lock of the network. From here on
        the cache will agree exactly as InfoCache says. */
    method RequestOperates() returns (err: Option<Error>)
      requires Valid() && request.Some? && request.value.q.Operating? && !Waits()
      modifies this`network, this`request, this`calm
      ensures Valid() && network.Some?
      ensures var op := old(request).value.q.op;
              var s := old(network).value.nw.value;
              && err == Failure(s, op) && RaceOf(network.value, maps) == Changed(RaceOf(old(network).value, maps), Do(s, op))
              && network.value.goroutine.Some? == old(network).value.goroutine.Some?
              && OperatedAs(s, op, network.value.nw, err)
      ensures err.Some? ==> request.None?
      ensures err.None? ==>
                && request == Some(Request(if old(request).value.q.locked then Locking else Making(false), NodeEnd))
                && (calm <==> Safe(Together())) && (old(calm) ==> calm)
    {
      hide Owned, AllStopped, Safe, Do, Failure, Synced, OperatedAs;
      var op, locked := request.value.q.op, request.value.q.locked;
      var s := network.value.nw.value;
      var failure := Failure(s, op);
      ghost var d := Together();
      OpKeepsInv(s, op);
      NodeOpKeepsOpen(s, op);
      OperationIs(s, op);
      if calm { RequestKeepsSafe(d, ""); }
      var phase := Changed(RaceOf(network.value, maps), Do(s, op)).phase;
      network := Some(network.value.(nw := Some(Do(s, op)), goroutine := if network.value.goroutine.Some? then Some(phase) else None));
      if failure.Some? {
        request := None;
        return failure;
      }
      request := Some(Request(if locked then Locking else Making(false), NodeEnd));
      assert Together() == InfoCache.Step(d, Requests(""));
      calm := Safe(Together());
      return None;
    }

    /** The next step of the rebuilding: the lock, the new map, or the node called name. */
    method RequestRebuilds(name: string) returns (err: Option<Error>)
      requires Valid() && request.Some? && (request.value.q.Locking? || request.value.q.Making? || request.value.q.Writing?)
      requires Enabled(Together(), Requests(name))
      modifies this`network, this`request, this`maps
      ensures Valid() && network.Some? && network.value.nw.Some?
      ensures var d := InfoCache.Step(old(Together()), Requests(name));
              && RaceOf(network.value, maps) == d.r
              && if err.Some? then d.q == Failed(err.value) && request.None?
                 else request == Some(Request(d.q, old(request).value.end))
    {
      hide Owned, AllStopped, Safe, TrackedFlag, InfoOf;
      var q := request.value.q;
      ghost var d := Together();
      if calm { RequestKeepsSafe(d, name); }
      match q {
        case Locking =>
          request := Some(request.value.(q := Making(true)));
        case Making(locked) =>
          maps := maps + [map[]];
          network := Some(network.value.(field := |maps| - 1));
          request := Some(request.value.(q := Writing(network.value.nw.value.nodes.Keys, locked)));
        case Writing(rest, locked) =>
          if rest == {} {
            request := Some(request.value.(q := Naming));
          } else {
            var node := network.value.nw.value.nodes[name];
            var flag := TrackedFlag(network.value.nw.value.store, node);
            if flag.Err? {
              request := None;
              return Some(flag.error);
            }
            var a := network.value.field;
            maps := maps[a := maps[a][name := InfoOf(network.value.nw.value.store, node)]];
            request := Some(request.value.(q := Writing(rest - {name}, locked)));
          }
      }
      err := None;
    }

    /** The names are taken, or the infos, with which the request ends. If the goroutine could
        do no harm, the cache then agrees with the network. */
    method RequestTakes() returns (done: bool)
      requires Valid() && request.Some? && (request.value.q.Naming? || request.value.q.Storing?)
      modifies this`cluster, this`request
      ensures Valid() && done == old(request).value.q.Storing?
      ensures done ==> request.None? && cluster.Some? && cluster.value.nodeInfos == network.value.field
                       && (old(calm) ==> CacheAgrees(network, cluster, maps))
      ensures done ==> old(cluster).Some? && cluster.value
                       == match old(request).value.end
                          case NodeEnd => old(cluster).value.(nodeInfos := network.value.field)
                          case HealthEnd => old(cluster).value.(nodeInfos := network.value.field, healthy := true)
                          case ClusterEnd =>
                            old(cluster).value.(nodeInfos := network.value.field, healthy := true, chainsHealthy := true,
                                                subnets := network.value.subnets)
      ensures !done ==> request == Some(Request(Storing(maps[network.value.field].Keys), old(request).value.end))
                        && cluster.Some? && old(cluster).Some? && cluster.value == old(cluster).value.(nodeNames := cluster.value.nodeNames)
                        && NamesTaken(cluster, maps[network.value.field].Keys)
    {
      hide Owned, AllStopped, StrictlySorted, Healthy, Right;
      ghost var d := Together();
      if calm { RequestKeepsSafe(d, ""); }
      if request.value.q.Naming? {
        var names := SortedList(maps[network.value.field].Keys);
        cluster := Some(cluster.value.(nodeNames := names));
        request := Some(request.value.(q := Storing(maps[network.value.field].Keys)));
        return false;
      }
      cluster := Some(cluster.value.(nodeInfos := network.value.field));
      match request.value.end {
        case NodeEnd =>
        case HealthEnd => cluster := Some(cluster.value.(healthy := true));
        case ClusterEnd =>
          cluster := Some(cluster.value.(healthy := true, chainsHealthy := true, subnets := network.value.subnets));
      }
      request := None;
      return true;
    }

    // ---------- the goroutine, and the outside ----------

    /** The goroutine goes on, with s.mu held by a request or not. */
    method GoroutineMoves(m: Move)
      requires Valid() && network.Some? && network.value.goroutine.Some? && CanGo(RaceOf(network.value, maps), m)
      requires m.TakeLock? && request.Some? ==> !RequestHolds(request.value.q)
      modifies this`network, this`maps
      ensures Valid() && network.Some? && network.value.nw.Some?
      ensures RaceOf(network.value, maps) == Go(RaceOf(old(network).value, old(maps)), m)
      ensures m.WaitEnds? ==>
                network.value.nw == old(network).value.nw
                && network.value.goroutine
                   == Some(if Ailing(network.value.nw.value, m.answer) then Finished(Some(Unhealthy)) else Listing)
    {
      hide Owned, AllStopped, Safe, TrackedFlag, InfoOf, Healthy, Ailing;
      if m.WaitEnds? { HealthyMeans(network.value.nw.value, m.answer); }
      var n := network.value;
      ghost var r := RaceOf(n, maps);
      if request.Some? && calm { GoKeepsSafe(Together(), m); }
      match m {
        case TakeLock =>
          network := Some(n.(goroutine := Some(Waiting)));
        case WaitEnds(answer) =>
          network := Some(n.(goroutine := Some(if Healthy(n.nw.value, answer) then Listing else Finished(Some(Unhealthy)))));
        case List =>
          network := Some(n.(goroutine := Some(Copied(n.nw.value.nodes))));
        case Make =>
          maps := maps + [map[]];
          network := Some(n.(field := |maps| - 1, goroutine := Some(Rebuilding(n.goroutine.value.todo))));
        case Write(name) =>
          GoroutineWrites(name);
          return;
        case Update(known) =>
          if maps[n.field] == map[] {
            network := Some(n.(goroutine := Some(Finished(Some(NoNodes)))));
          } else if known.None? {
            network := Some(n.(goroutine := Some(Finished(Some(ChainUnavailable)))));
          } else {
            network := Some(n.(subnets := known.value, goroutine := Some(Finished(None))));
          }
      }
      assert RaceOf(network.value, maps) == Go(r, m);
    }

    /** It writes the info of one node it has listed. */
    method GoroutineWrites(name: string)
      requires Valid() && network.Some? && network.value.goroutine.Some? && CanGo(RaceOf(network.value, maps), Write(name))
      modifies this`network, this`maps
      ensures Valid() && network.Some? && network.value.nw.Some?
      ensures RaceOf(network.value, maps) == Go(RaceOf(old(network).value, old(maps)), Write(name))
    {
      hide Owned, AllStopped, Safe, TrackedFlag, InfoOf, Healthy;
      var n := network.value;
      if request.Some? && calm { GoKeepsSafe(Together(), Write(name)); }
      var node := n.goroutine.value.todo[name];
      var flag := TrackedFlag(n.nw.value.store, node);
      if flag.Err? {
        network := Some(n.(goroutine := Some(Finished(Some(flag.error)))));
      } else {
        maps := maps[n.field := maps[n.field][name := InfoOf(n.nw.value.store, node)]];
        network := Some(n.(goroutine := Some(Rebuilding(n.goroutine.value.todo - {name}))));
      }
    }

    /** The cluster info was taken anew from a network, and marked as healthy. */
    ghost predicate Refreshed(n: Runner)
      reads this
    {
      && cluster.Some? && n.field < |maps|
      && cluster == Some(ClusterInfo(true, true, cluster.value.nodeNames, n.field, n.subnets)) && NamesTaken(cluster, maps[n.field].Keys)
    }

    /** The goroutine of the network that is held gets s.mu. */
    method GoroutineCompletes(codes: nat -> int)
      requires Valid() && request.None? && network.Some? && network.value.goroutine.Some? && network.value.goroutine.value.Finished?
      modifies this
      ensures Valid() && request.None? && orphans == old(orphans)
      ensures var err := old(network).value.goroutine.value.err;
              if err.Some? then network.None? && asyncErrs == [err.value]
              else network == Some(old(network).value.(goroutine := None)) && Refreshed(network.value)
    {
      hide Owned, AllStopped, StrictlySorted;
      var err := network.value.goroutine.value.err;
      network := Some(network.value.(goroutine := None));
      Complete(err, codes);
    }

    /** The goroutine of a network that was given up gets s.mu, however late, and whatever it
        has waited for: it is what the server holds by then that it stops or marks as healthy. */
    method OrphanCompletes(late: Option<Error>, codes: nat -> int)
      requires Valid() && request.None? && orphans > 0
      modifies this
      ensures Valid() && request.None?
      ensures old(network).None? ==> network.None?
      ensures late.Some? ==> network.None? && asyncErrs == [late.value]
      ensures late.None? ==> network == old(network) && (if network.Some? then Refreshed(network.value) else cluster == old(cluster))
    {
      hide Owned, AllStopped, StrictlySorted;
      orphans := orphans - 1;
      Complete(late, codes);
    }

    /** The completion of a goroutine, under s.mu. */
    method Complete(err: Option<Error>, codes: nat -> int)
      requires Valid() && request.None?
      modifies this
      ensures Valid() && request.None?
      ensures err.Some? ==> network.None? && asyncErrs == [err.value]
      ensures err.None? ==> network == old(network) && (if network.Some? then Refreshed(network.value) else cluster == old(cluster))
      ensures old(network).Some? && old(network).value.goroutine.Some? && err.Some? ==> orphans == old(orphans) + 1
      ensures old(network).None? || old(network).value.goroutine.None? || err.None? ==> orphans == old(orphans)
    {
      hide Owned, AllStopped, StrictlySorted;
      if err.Some? {
        StopAndRemoveNetwork(err, codes);
      } else {
        UpdateClusterInfo();
      }
    }

    /** A process of the network exits by itself. */
    method ProcessExits(pid: nat, code: int)
      requires Valid()
      modifies this`network
      ensures Valid()
      ensures old(network).None? ==> network.None?
      ensures old(network).Some? && old(network).value.nw.Some? ==>
                var s := old(network).value.nw.value;
                && network.Some? && network.value.nw.Some?
                && network == Some(old(network).value.(nw := network.value.nw))
                && network.value.nw.value == s.(procs := network.value.nw.value.procs) && |network.value.nw.value.procs| == |s.procs|
                && (forall p :: 0 <= p < |s.procs| ==>
                      network.value.nw.value.procs[p]
                      == if p == pid && s.procs[p].exit.None? then s.procs[p].(exit := Some(code)) else s.procs[p])
    {
      hide Owned, AllStopped, Safe;
      if network.Some? {
        var s := network.value.nw.value;
        OpKeepsInv(s, Exit(pid, code));
        if request.Some? && calm { ExitKeepsSafe(Together(), pid, code); }
        if pid < |s.procs| {
          network := Some(network.value.(nw := Some(s.(procs := s.procs[pid := Halt(s.procs[pid], code)]))));
        }
      }
    }

    /** Any stretches whatever, one after the other: the server stays safe. */
    method Serve(steps: seq<Step>)
      requires Valid() && forall i :: 0 <= i < |steps| ==> PossibleStep(steps[i])
      modifies this
      ensures Valid()
    {
      hide Valid, Proper;
      for i := 0 to |steps|
        invariant Valid()
      {
        Take(steps[i]);
      }
    }

    /** One stretch, unless it has to wait: for s.mu, or for a lock that the goroutine holds. */
    method Take(step: Step)
      requires Valid() && PossibleStep(step)
      modifies this
      ensures Valid()
    {
      hide Lawful, Sound, Accounted, Addressed, InProgress, CacheAgrees, Safe, Calm, Right, Do, Proper, CanGo, Go;
      if step.MoveStep? {
        if network.Some? && network.value.goroutine.Some? { MoveIfPossible(step.move); }
      } else if step.RequestStep? {
        if request.Some? { Continue(step.name); }
      } else if step.ExitStep? {
        ProcessExits(step.pid, step.code);
      } else if request.None? {
        TakeIdle(step);
      }
    }

    method MoveIfPossible(m: Move)
      requires Valid() && network.Some? && network.value.goroutine.Some?
      modifies this
      ensures Valid()
    {
      hide Lawful, Accounted, Addressed, InProgress, Safe, Owned;
      if CanGo(RaceOf(network.value, maps), m) && (m.TakeLock? ==> request.None? || !RequestHolds(request.value.q)) {
        GoroutineMoves(m);
      }
    }

    /** The next step of the request in progress, unless it has to wait for a lock. */
    method Continue(name: string)
      requires Valid() && request.Some?
      modifies this
      ensures Valid()
    {
      hide Lawful, Accounted, Safe, Owned, CacheAgrees;
      var ignored, done;
      match request.value.q {
        case Operating(_, _) => if !Waits() { ignored := RequestOperates(); }
        case Locking => if !Busy() { ignored := RequestRebuilds(name); }
        case Making(_) => ignored := RequestRebuilds(name);
        case Writing(rest, _) => if rest == {} || name in rest { ignored := RequestRebuilds(name); }
        case _ => done := RequestTakes();
      }
    }

    /** A stretch that begins with taking s.mu. */
    method TakeIdle(step: Step)
      requires Valid() && PossibleStep(step) && request.None?
      modifies this
      ensures Valid()
    {
      hide Lawful, Sound, Accounted, Addressed, InProgress, CacheAgrees, Safe, Calm, Right, Do, Proper;
      var ignored, again;
      match step {
        case StartStep(valid, logger, l, any, i, codes) => ignored := Start(valid, logger, l, any, i, codes);
        case LoadSnapshotStep(valid, logger, l, codes) => ignored := LoadSnapshot(valid, logger, l, codes);
        case CompleteStep(codes) =>
          if network.Some? && network.value.goroutine.Some? && network.value.goroutine.value.Finished? { GoroutineCompletes(codes); }
        case OrphanStep(late, codes) => if orphans > 0 { OrphanCompletes(late, codes); }
        case CreateBlockchainsStep(valid, named, i, codes) => if !Busy() { ignored := CreateBlockchains(valid, named, i, codes); }
        case CreateSubnetsStep(valid, any, i, codes) => if !Busy() { ignored := CreateSubnets(valid, any, i, codes); }
        case HealthStep(p) => if !Busy() { ignored := Health(p); }
        case WaitForHealthyStep(expired, takeError) => ignored, again := WaitForHealthyRound(expired, takeError);
        case StopStep(codes) => Stop(codes);
        case SaveSnapshotStep(name, taken, written, codes) => if !Waits() { ignored := SaveSnapshot(name, taken, written, codes); }
        case AddNodeStep(name, flags, binaryPath, files, e) => ignored := AddNode(name, flags, binaryPath, files, e);
        case RemoveNodeStep(name, code) => ignored := RemoveNode(name, code);
        case PauseNodeStep(name, code) => ignored := PauseNode(name, code);
        case ResumeNodeStep(name, e) => ignored := ResumeNode(name, e);
        case RestartNodeStep(name, o, code, e) => ignored := RestartNode(name, o, code, e);
        case _ =>
      }
    }
  }

  /** A configuration refers to flag maps that exist. */
  ghost predicate PossibleStep(step: Step) {
    match step
    case StartStep(_, _, l, _, _, _) => Proper(l)
    case LoadSnapshotStep(_, _, l, _) => Proper(l)
    case _ => true
  }

  lemma NetworkHasCluster(network: Option<Runner>, cluster: Option<ClusterInfo>, asyncErrs: seq<Error>)
    requires Lawful(network, cluster, asyncErrs) && network.Some?
    ensures cluster.Some?
  {
  }

  lemma RightKeys(r: Race, a: nat)
    requires Right(r, a, {})
    ensures a < |r.maps| && r.maps[a].Keys == r.net.nodes.Keys
  {
    assert forall n :: n in r.maps[a] ==> n in r.net.nodes.Keys;
  }

  lemma SaveRefused(s: State, codes: nat -> int)
    requires WellFormed(s)
    ensures Do(s, Save(false, codes)) == s
  {
  }

  lemma NodeOpKeepsOpen(s: State, op: Op)
    requires Inv(s) && Legal(s, op) && !s.stopped && NodeOp(op)
    ensures !Do(s, op).stopped
  {
    hide Do, Owned;
    WorkKeepsOpen(s, op);
  }

  lemma SortedEmpty(names: seq<string>, nodes: map<string, Node>)
    requires Elements(names) == nodes.Keys
    ensures |names| == 0 <==> nodes == map[]
  {
    if |names| > 0 { assert names[0] in Elements(names); }
    if nodes != map[] {
      var n :| n in nodes;
      assert n in Elements(names);
    }
  }
}
