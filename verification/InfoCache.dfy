/** The server's cache of the nodes, and who writes it (server/network.go, server/server.go).
    A request about one node holds s.mu: it operates on the network, rebuilds the infos of
    its localNetwork and takes them into the cluster info. The goroutine of a LoadSnapshot
    rebuilds the same infos without s.mu, under lc.lock. Pausing and resuming rebuild them
    without lc.lock, and every request takes them without it. Every statement that the other
    side can observe is one step here, and the steps interleave freely. */
module InfoCache {
  import opened Common
  import opened Flags
  import opened Network
  import opened Runs

  /** What the server tells about a node. */
  datatype NodeInfo = NodeInfo(
    name: string, host: string, apiPort: Port, id: string, binaryPath: string, logDir: string, dbDir: string,
    pluginDir: string, tracked: string, paused: bool)

  type InfoMap = map<string, NodeInfo>

  /** GetFlag for the tracked subnets: the config file, if there is one, hides the flags. */
  function TrackedFlag(store: seq<FlagMap>, node: Node): Result<string, Error> {
    var c := node.cfg;
    var flags := if c.configFile.Some? then c.configFile.value
                 else if c.flags.Some? && c.flags.value < |store| then store[c.flags.value]
                 else map[];
    if TrackSubnets !in flags then Ok("")
    else if flags[TrackSubnets].Str? then Ok(flags[TrackSubnets].s)
    else Err(WrongFlagType)
  }

  function InfoOf(store: seq<FlagMap>, node: Node): NodeInfo {
    var tracked := TrackedFlag(store, node);
    NodeInfo(node.cfg.name, node.httpHost, node.apiPort, node.id, node.cfg.binaryPath, node.logsDir, node.dbDir,
             node.pluginDir, if tracked.Ok? then tracked.value else "", node.paused)
  }

  /** healthy: every node that is not paused runs and answers. */
  predicate Healthy(s: State, answer: bool) {
    forall n :: n in s.nodes && !s.nodes[n].paused ==>
      answer && s.nodes[n].pid < |s.procs| && s.procs[s.nodes[n].pid].exit.None?
  }

  /** Some node that is not paused does not answer, or its process has exited. */
  ghost predicate Ailing(s: State, answer: bool) {
    exists n :: n in s.nodes && !s.nodes[n].paused
                && (!answer || (s.nodes[n].pid < |s.procs| && s.procs[s.nodes[n].pid].exit.Some?))
  }

  lemma HealthyMeans(s: State, answer: bool)
    requires WellFormed(s)
    ensures Healthy(s, answer) <==> !Ailing(s, answer)
  {
  }

  /** What is shown of a node: its tracked subnets are looked up in its config file if it has
      one, and otherwise in its flags. */
  ghost predicate Describes(store: seq<FlagMap>, node: Node, info: NodeInfo) {
    && info.name == node.cfg.name && info.id == node.id && info.paused == node.paused
    && info.host == node.httpHost && info.apiPort == node.apiPort && info.binaryPath == node.cfg.binaryPath
    && info.dbDir == node.dbDir && info.logDir == node.logsDir && info.pluginDir == node.pluginDir
    && (node.cfg.configFile.Some? ==> Shows(node.cfg.configFile.value, info.tracked))
    && (node.cfg.configFile.None? && node.cfg.flags.Some? && node.cfg.flags.value < |store| ==>
          Shows(store[node.cfg.flags.value], info.tracked))
  }

  /** The tracked subnets among some flags; none if the flag is not there. */
  ghost predicate Shows(flags: FlagMap, tracked: string) {
    if TrackSubnets in flags then flags[TrackSubnets].Str? ==> tracked == flags[TrackSubnets].s else tracked == ""
  }

  /** The tracked subnets of a node are not a string. */
  ghost predicate Unreadable(store: seq<FlagMap>, node: Node) {
    if node.cfg.configFile.Some? then NoString(node.cfg.configFile.value)
    else node.cfg.flags.Some? && node.cfg.flags.value < |store| && NoString(store[node.cfg.flags.value])
  }

  ghost predicate NoString(flags: FlagMap) {
    TrackSubnets in flags && !flags[TrackSubnets].Str?
  }

  lemma InfoDescribes(store: seq<FlagMap>, node: Node)
    ensures Describes(store, node, InfoOf(store, node))
    ensures TrackedFlag(store, node).Err? <==> Unreadable(store, node)
    ensures TrackedFlag(store, node).Err? ==> TrackedFlag(store, node).error == WrongFlagType
  {
  }

  // ---------- the goroutine ----------

  /** Where the goroutine is. From Waiting on it holds lc.lock, and in Waiting also the lock
      of the network, for reading. The nodes it has listed are objects: they change with the
      network as long as they are its entries. */
  datatype Phase =
    | Queued
    | Waiting
    | Listing
    | Copied(todo: map<string, Node>)
    | Rebuilding(todo: map<string, Node>)
    | Finished(err: Option<Error>)

  /** The network of a localNetwork, all info maps ever made, which of them is its nodeInfos,
      its subnets, and its goroutine. */
  datatype Race = Race(net: State, maps: seq<InfoMap>, field: nat, subnets: seq<string>, phase: Phase)

  predicate GoroutineHolds(p: Phase) {
    !p.Queued? && !p.Finished?
  }

  datatype Move =
    | TakeLock
    | WaitEnds(answer: bool)
    | List
    | Make
    | Write(name: string)
    | Update(known: Option<seq<string>>)

  predicate CanGo(r: Race, m: Move) {
    match m
    case TakeLock => r.phase.Queued?
    case WaitEnds(_) => r.phase.Waiting?
    case List => r.phase.Listing?
    case Make => r.phase.Copied?
    case Write(n) => r.phase.Rebuilding? && n in r.phase.todo && r.field < |r.maps|
    case Update(_) => r.phase.Rebuilding? && r.phase.todo == map[] && r.field < |r.maps|
  }

  function Made(r: Race): Race {
    r.(maps := r.maps + [map[]], field := |r.maps|)
  }

  function Written(r: Race, n: string, node: Node): Race
    requires r.field < |r.maps|
  {
    r.(maps := r.maps[r.field := r.maps[r.field][n := InfoOf(r.net.store, node)]])
  }

  /** A step of the goroutine: AwaitHealthyAndUpdateNetworkInfo. */
  function Go(r: Race, m: Move): Race
    requires CanGo(r, m)
  {
    match m
    case TakeLock => r.(phase := Waiting)
    case WaitEnds(answer) => r.(phase := if Healthy(r.net, answer) then Listing else Finished(Some(Unhealthy)))
    case List => r.(phase := Copied(r.net.nodes))
    case Make => Made(r).(phase := Rebuilding(r.phase.todo))
    case Write(n) =>
      var flag := TrackedFlag(r.net.store, r.phase.todo[n]);
      if flag.Err? then r.(phase := Finished(Some(flag.error)))
      else Written(r, n, r.phase.todo[n]).(phase := Rebuilding(r.phase.todo - {n}))
    case Update(answer) =>
      if r.maps[r.field] == map[] then r.(phase := Finished(Some(NoNodes)))
      else if answer.None? then r.(phase := Finished(Some(ChainUnavailable)))
      else r.(subnets := answer.value, phase := Finished(None))
  }

  // ---------- the request ----------

  /** Where the request is; locked says that it rebuilds under lc.lock. */
  datatype Req =
    | Operating(op: Op, locked: bool)
    | Locking
    | Making(locked: bool)
    | Writing(rest: set<string>, locked: bool)
    | Naming
    | Storing(names: set<string>)
    | Done(names: set<string>, infos: nat)
    | Failed(err: Error)

  predicate RequestHolds(q: Req) {
    (q.Making? || q.Writing?) && q.locked
  }

  predicate NodeOp(op: Op) {
    op.Add? || op.Remove? || op.Pause? || op.Resume? || op.Restart?
  }

  /** What a request's operation on the network reports. */
  function Failure(s: State, op: Op): Option<Error>
    requires WellFormed(s) && Legal(s, op) && NodeOp(op)
  {
    match op
    case Add(c, e) => if s.stopped then Some(NetworkStopped) else AddNode(s, c, e).err
    case Remove(name, code) => if s.stopped then Some(NetworkStopped) else RemoveNode(s, name, code).err
    case Pause(name, code) => if s.stopped then Some(NetworkStopped) else PauseNode(s, name, code).err
    case Resume(name, e) => ResumeNode(s, name, e).err
    case Restart(name, o, code, e) => RestartNode(s, name, o, code, e).err
  }

  /** The listed objects after the network has changed. */
  function Synced(todo: map<string, Node>, nodes: map<string, Node>): map<string, Node> {
    map n | n in todo :: if n in nodes && nodes[n].pid == todo[n].pid then nodes[n] else todo[n]
  }

  function Changed(r: Race, net: State): Race {
    r.(net := net, phase := match r.phase
                            case Copied(todo) => Copied(Synced(todo, net.nodes))
                            case Rebuilding(todo) => Rebuilding(Synced(todo, net.nodes))
                            case _ => r.phase)
  }

  datatype Duo = Duo(r: Race, q: Req)

  /** A step of the goroutine, a step of the request (which writes the node of that name, if
      it writes), or a process that exits by itself. */
  datatype Act = Goes(m: Move) | Requests(name: string) | Exits(pid: nat, code: int)

  ghost predicate Enabled(d: Duo, a: Act) {
    match a
    case Goes(m) => CanGo(d.r, m) && (m.TakeLock? ==> !RequestHolds(d.q))
    case Exits(_, _) => true
    case Requests(n) =>
      match d.q
      case Operating(op, _) => !d.r.phase.Waiting? && WellFormed(d.r.net) && NodeOp(op) && Legal(d.r.net, op)
      case Locking => !GoroutineHolds(d.r.phase)
      case Making(_) => true
      case Writing(rest, _) => (rest == {} || n in rest) && rest <= d.r.net.nodes.Keys && d.r.field < |d.r.maps|
      case Naming => d.r.field < |d.r.maps|
      case Storing(_) => true
      case Done(_, _) => false
      case Failed(_) => false
  }

  function Step(d: Duo, a: Act): Duo
    requires Enabled(d, a)
  {
    match a
    case Goes(m) => d.(r := Go(d.r, m))
    case Exits(pid, code) =>
      if pid < |d.r.net.procs| then
        d.(r := d.r.(net := d.r.net.(procs := d.r.net.procs[pid := Halt(d.r.net.procs[pid], code)])))
      else d
    case Requests(n) =>
      match d.q
      case Operating(op, locked) =>
        var failure := Failure(d.r.net, op);
        Duo(Changed(d.r, Do(d.r.net, op)),
            if failure.Some? then Failed(failure.value) else if locked then Locking else Making(false))
      case Locking => d.(q := Making(true))
      case Making(locked) => Duo(Made(d.r), Writing(d.r.net.nodes.Keys, locked))
      case Writing(rest, locked) =>
        if rest == {} then d.(q := Naming)
        else
          var flag := TrackedFlag(d.r.net.store, d.r.net.nodes[n]);
          if flag.Err? then d.(q := Failed(flag.error))
          else Duo(Written(d.r, n, d.r.net.nodes[n]), Writing(rest - {n}, locked))
      case Naming => d.(q := Storing(d.r.maps[d.r.field].Keys))
      case Storing(names) => d.(q := Done(names, d.r.field))
  }

  /** The steps can be taken one after the other. */
  ghost predicate Possible(d: Duo, run: seq<Act>)
    decreases |run|
  {
    run == [] || (Enabled(d, run[0]) && Possible(Step(d, run[0]), run[1..]))
  }

  ghost function After(d: Duo, run: seq<Act>): Duo
    requires Possible(d, run)
    decreases |run|
  {
    if run == [] then d else After(Step(d, run[0]), run[1..])
  }

  lemma {:induction false} AfterBoth(d: Duo, a: seq<Act>, b: seq<Act>)
    requires Possible(d, a) && Possible(After(d, a), b)
    ensures Possible(d, a + b) && After(d, a + b) == After(After(d, a), b)
    decreases |a|
  {
    hide Enabled, Step;
    if a == [] {
      assert a + b == b;
    } else {
      assert (a + b)[1..] == a[1..] + b;
      AfterBoth(Step(d, a[0]), a[1..], b);
    }
  }

  lemma AfterOne(d: Duo, a: Act)
    requires Enabled(d, a)
    ensures Possible(d, [a]) && After(d, [a]) == Step(d, a)
  {
    hide Enabled, Step;
    assert [a][1..] == [];
    assert Possible(Step(d, a), []);
  }

  // ---------- agreement ----------

  /** An info map describes nodes of the network, as they are, and all but some of them. */
  ghost predicate Right(r: Race, a: nat, rest: set<string>) {
    && a < |r.maps| && r.net.nodes.Keys - rest <= r.maps[a].Keys
    && (forall n :: n in r.maps[a] ==> n in r.net.nodes && r.maps[a][n] == InfoOf(r.net.store, r.net.nodes[n]))
  }

  /** A request that is done has taken all names, and infos that are right. */
  ghost predicate Agrees(d: Duo) {
    d.q.Done? ==> d.q.names == d.r.net.nodes.Keys && Right(d.r, d.q.infos, {})
  }

  /** Writing this object under this name does no harm: it is what the entry says, or it
      ends the goroutine. */
  ghost predicate Harmless(net: State, n: string, node: Node) {
    || TrackedFlag(net.store, node).Err?
    || (n in net.nodes && InfoOf(net.store, node) == InfoOf(net.store, net.nodes[n]))
  }

  /** The goroutine can do no harm any more: it has finished, or cannot become healthy, or all
      that it still writes is right. */
  ghost predicate Calm(r: Race) {
    match r.phase
    case Finished(_) => true
    case Queued => r.net.nodes == map[] || !Healthy(r.net, true)
    case Waiting => r.net.nodes == map[] || !Healthy(r.net, true)
    case Listing => r.net.nodes == map[]
    case Copied(todo) => r.net.nodes == map[] && todo == map[]
    case Rebuilding(todo) => forall n :: n in todo ==> Harmless(r.net, n, todo[n])
  }

  /** What a request keeps, given a calm goroutine. A request that takes lc.lock only needs
      the goroutine to be calm if that has not taken the lock yet. */
  ghost predicate Safe(d: Duo) {
    match d.q
    case Operating(_, locked) => d.r.phase.Finished? || (locked && !d.r.phase.Queued?)
    case Failed(_) => true
    case Locking => d.r.phase.Queued? ==> Calm(d.r)
    case Making(locked) => Calm(d.r) && (locked ==> !GoroutineHolds(d.r.phase))
    case Writing(rest, locked) =>
      Calm(d.r) && (locked ==> !GoroutineHolds(d.r.phase)) && rest <= d.r.net.nodes.Keys && Right(d.r, d.r.field, rest)
    case Naming => Calm(d.r) && Right(d.r, d.r.field, {})
    case Storing(names) => Calm(d.r) && Right(d.r, d.r.field, {}) && names == d.r.net.nodes.Keys
    case Done(names, infos) =>
      Calm(d.r) && Right(d.r, infos, {}) && names == d.r.net.nodes.Keys && (infos == d.r.field || d.r.net.nodes == map[])
  }

  lemma UnhealthyStays(net: State, pid: nat, code: int)
    requires pid < |net.procs| && !Healthy(net, true)
    ensures !Healthy(net.(procs := net.procs[pid := Halt(net.procs[pid], code)]), true)
  {
  }

  lemma {:induction false} ExitKeepsSafe(d: Duo, pid: nat, code: int)
    requires Safe(d)
    ensures Safe(Step(d, Exits(pid, code)))
  {
    hide TrackedFlag, InfoOf;
    if pid < |d.r.net.procs| && !Healthy(d.r.net, true) { UnhealthyStays(d.r.net, pid, code); }
  }

  /** A calm goroutine stays calm, writes only what is right, and makes a map only if there
      are no nodes. */
  lemma CalmGo(r: Race, m: Move)
    requires Calm(r) && CanGo(r, m)
    ensures Calm(Go(r, m)) && Go(r, m).net == r.net && |Go(r, m).maps| >= |r.maps|
    ensures Go(r, m).field == r.field || (r.net.nodes == map[] && forall rest :: Right(Go(r, m), Go(r, m).field, rest))
    ensures forall a, rest :: Right(r, a, rest) ==> Right(Go(r, m), a, rest)
  {
    hide TrackedFlag, InfoOf;
    if m.Write? {
      var n := m.name;
      assert Harmless(r.net, n, r.phase.todo[n]);
      if TrackedFlag(r.net.store, r.phase.todo[n]).Ok? { WriteIsRight(r, n, r.phase.todo[n]); }
    }
  }

  lemma WriteIsRight(r: Race, n: string, node: Node)
    requires r.field < |r.maps| && n in r.net.nodes && InfoOf(r.net.store, node) == InfoOf(r.net.store, r.net.nodes[n])
    ensures forall a, rest :: Right(r, a, rest) ==> Right(Written(r, n, node), a, rest)
  {
    hide InfoOf;
  }

  lemma {:induction false} GoKeepsSafe(d: Duo, m: Move)
    requires Safe(d) && Enabled(d, Goes(m))
    ensures Safe(Step(d, Goes(m)))
  {
    hide Right, Calm, Healthy;
    if Calm(d.r) { CalmGo(d.r, m); }
  }

  lemma OperatingKeepsSafe(d: Duo, n: string)
    requires Safe(d) && d.q.Operating? && Enabled(d, Requests(n))
    ensures Safe(Step(d, Requests(n)))
  {
    hide TrackedFlag, InfoOf, Healthy, Harmless, Right, Do, Failure, Synced;
  }

  lemma WritingKeepsSafe(d: Duo, n: string)
    requires Safe(d) && d.q.Writing? && d.q.rest != {} && Enabled(d, Requests(n))
    ensures Safe(Step(d, Requests(n)))
  {
    hide TrackedFlag, InfoOf, Healthy, Harmless, Do, Failure;
  }

  lemma RequestKeepsSafe(d: Duo, n: string)
    requires Safe(d) && Enabled(d, Requests(n))
    ensures Safe(Step(d, Requests(n)))
  {
    if d.q.Operating? {
      OperatingKeepsSafe(d, n);
    } else if d.q.Writing? && d.q.rest != {} {
      WritingKeepsSafe(d, n);
    } else {
      hide TrackedFlag, InfoOf, Healthy, Harmless, Do, Failure;
    }
  }

  lemma {:induction false} RunKeepsSafe(d: Duo, run: seq<Act>)
    requires Safe(d) && Possible(d, run)
    ensures Safe(After(d, run))
    decreases |run|
  {
    hide Safe, Step, Enabled;
    if run != [] {
      match run[0] {
        case Goes(m) => GoKeepsSafe(d, m);
        case Requests(n) => RequestKeepsSafe(d, n);
        case Exits(pid, code) => ExitKeepsSafe(d, pid, code);
      }
      RunKeepsSafe(Step(d, run[0]), run[1..]);
    }
  }

  lemma SafeAgrees(d: Duo)
    requires Safe(d)
    ensures Agrees(d)
  {
  }

  // ---------- disagreement ----------

  ghost predicate FlagsFine(s: State) {
    forall n :: n in s.nodes ==> TrackedFlag(s.store, s.nodes[n]).Ok?
  }

  /** Left to itself, a request writes all nodes. */
  lemma {:induction false} WriteAll(d: Duo) returns (run: seq<Act>)
    requires d.q.Writing? && d.q.rest <= d.r.net.nodes.Keys && d.r.field < |d.r.maps| && FlagsFine(d.r.net)
    ensures Possible(d, run)
    ensures var e := After(d, run); e.q == Naming && e.r == d.r.(maps := e.r.maps) && |e.r.maps| == |d.r.maps|
    decreases d.q.rest
  {
    hide Enabled, Step, TrackedFlag, InfoOf;
    if d.q.rest == {} {
      WriteEnds(d);
      AfterOne(d, Requests(""));
      run := [Requests("")];
    } else {
      var n :| n in d.q.rest;
      WriteOne(d, n);
      var e := Step(d, Requests(n));
      AfterOne(d, Requests(n));
      var more := WriteAll(e);
      AfterBoth(d, [Requests(n)], more);
      run := [Requests(n)] + more;
    }
  }

  lemma WriteEnds(d: Duo)
    requires d.q.Writing? && d.q.rest == {} && d.r.field < |d.r.maps|
    ensures Enabled(d, Requests("")) && Step(d, Requests("")) == d.(q := Naming)
  {
  }

  lemma WriteOne(d: Duo, n: string)
    requires d.q.Writing? && n in d.q.rest && d.q.rest <= d.r.net.nodes.Keys && d.r.field < |d.r.maps| && FlagsFine(d.r.net)
    ensures Enabled(d, Requests(n))
    ensures Step(d, Requests(n)) == Duo(Written(d.r, n, d.r.net.nodes[n]), Writing(d.q.rest - {n}, d.q.locked))
  {
    hide TrackedFlag, InfoOf;
    assert n in d.r.net.nodes.Keys;
  }

  /** A goroutine that is about to rebuild, once it is healthy. */
  ghost predicate AboutToMake(r: Race) {
    match r.phase
    case Queued => Healthy(r.net, true)
    case Waiting => Healthy(r.net, true)
    case Listing => true
    case Copied(_) => true
    case _ => false
  }

  /** It can go on until it has made a map and written nothing into it. */
  lemma CatchUp(d: Duo) returns (run: seq<Act>)
    requires d.q == Naming && AboutToMake(d.r)
    ensures Possible(d, run)
    ensures var e := After(d, run); e.q == Naming && e.r.net == d.r.net && e.r.field < |e.r.maps| && e.r.maps[e.r.field] == map[]
    decreases match d.r.phase case Queued => 3 case Waiting => 2 case Listing => 1 case _ => 0
  {
    hide Healthy;
    var m := match d.r.phase
             case Queued => TakeLock
             case Waiting => WaitEnds(true)
             case Listing => List
             case _ => Make;
    var e := Step(d, Goes(m));
    AfterOne(d, Goes(m));
    if m == Make {
      run := [Goes(m)];
    } else {
      var more := CatchUp(e);
      AfterBoth(d, [Goes(m)], more);
      run := [Goes(m)] + more;
    }
  }

  /** Names and infos are taken without anything in between. */
  lemma TakeBoth(d: Duo) returns (run: seq<Act>)
    requires d.q == Naming && d.r.field < |d.r.maps|
    ensures Possible(d, run) && After(d, run) == Duo(d.r, Done(d.r.maps[d.r.field].Keys, d.r.field))
  {
    var e := Step(d, Requests(""));
    AfterOne(d, Requests(""));
    AfterOne(e, Requests(""));
    AfterBoth(d, [Requests("")], [Requests("")]);
    run := [Requests("")] + [Requests("")];
  }

  /** A goroutine that is not calm can spoil what the request has rebuilt. */
  lemma Spoil(d: Duo) returns (run: seq<Act>)
    requires d.q == Naming && !Calm(d.r) && d.r.net.nodes != map[] && d.r.field < |d.r.maps|
    ensures Possible(d, run) && After(d, run).q.Done? && !Agrees(After(d, run))
  {
    var first: seq<Act>;
    if d.r.phase.Rebuilding? {
      var n :| n in d.r.phase.todo && !Harmless(d.r.net, n, d.r.phase.todo[n]);
      AfterOne(d, Goes(Write(n)));
      first := [Goes(Write(n))];
      var e := After(d, first);
      assert n in e.r.maps[e.r.field] && (n in e.r.net.nodes ==> e.r.maps[e.r.field][n] != InfoOf(e.r.net.store, e.r.net.nodes[n]));
    } else {
      first := CatchUp(d);
      var some :| some in d.r.net.nodes;
      assert some in d.r.net.nodes.Keys;
    }
    var e := After(d, first);
    var last := TakeBoth(e);
    hide Enabled, Step, Calm;
    AfterBoth(d, first, last);
    run := first + last;
  }

  /** The request rebuilds, and the goroutine spoils it before the infos are taken. */
  lemma RebuildAndSpoil(d: Duo) returns (run: seq<Act>)
    requires d.q.Making? && d.r.net.nodes != map[] && FlagsFine(d.r.net) && !Calm(d.r)
    ensures Possible(d, run) && After(d, run).q.Done? && !Agrees(After(d, run))
  {
    var e := Step(d, Requests(""));
    assert e == Duo(Made(d.r), Writing(d.r.net.nodes.Keys, d.q.locked));
    AfterOne(d, Requests(""));
    hide Enabled, Step, TrackedFlag, InfoOf;
    var writes := WriteAll(e);
    var f := After(e, writes);
    assert !Calm(f.r);
    hide Calm, Agrees, Healthy;
    var spoil := Spoil(f);
    AfterBoth(e, writes, spoil);
    AfterBoth(d, [Requests("")], writes + spoil);
    run := [Requests("")] + (writes + spoil);
  }

  // ---------- exactly when ----------

  /** A request that rebuilds without lc.lock, when its operation is done: the cache agrees
      at the end of every run exactly if the goroutine is calm. */
  lemma UnlockedAgreesIff(d: Duo)
    requires d.q == Making(false) && d.r.net.nodes != map[] && FlagsFine(d.r.net)
    ensures (forall run :: Possible(d, run) ==> Agrees(After(d, run))) <==> Calm(d.r)
  {
    hide Enabled, Step, Calm, FlagsFine;
    if Calm(d.r) {
      forall run | Possible(d, run) ensures Agrees(After(d, run)) {
        RunKeepsSafe(d, run);
        SafeAgrees(After(d, run));
      }
    } else {
      var run := RebuildAndSpoil(d);
      assert Possible(d, run) && !Agrees(After(d, run));
    }
  }

  /** A request that takes lc.lock, when its operation is done: the cache agrees at the end of
      every run exactly if the goroutine has taken the lock before, or cannot become healthy,
      or there are no nodes. */
  lemma LockedAgreesIff(d: Duo)
    requires d.q == Locking && FlagsFine(d.r.net)
    ensures (forall run :: Possible(d, run) ==> Agrees(After(d, run)))
            <==> !(d.r.phase.Queued? && Healthy(d.r.net, true) && d.r.net.nodes != map[])
  {
    if d.r.phase.Queued? && Healthy(d.r.net, true) && d.r.net.nodes != map[] {
      var e := Step(d, Requests(""));
      AfterOne(d, Requests(""));
      hide Enabled, Step, FlagsFine, Healthy, Agrees;
      var more := RebuildAndSpoil(e);
      AfterBoth(d, [Requests("")], more);
      var run := [Requests("")] + more;
      assert Possible(d, run) && !Agrees(After(d, run));
    } else {
      hide Enabled, Step, FlagsFine, Healthy;
      forall run | Possible(d, run) ensures Agrees(After(d, run)) {
        RunKeepsSafe(d, run);
        SafeAgrees(After(d, run));
      }
    }
  }

  /** A request that has rebuilt the infos under lc.lock and is about to take them. */
  lemma TakingAgreesIff(d: Duo)
    requires d.q == Naming && Right(d.r, d.r.field, {}) && d.r.net.nodes != map[]
    ensures (forall run :: Possible(d, run) ==> Agrees(After(d, run))) <==> Calm(d.r)
  {
    hide Enabled, Step, Calm;
    if Calm(d.r) {
      forall run | Possible(d, run) ensures Agrees(After(d, run)) {
        RunKeepsSafe(d, run);
        SafeAgrees(After(d, run));
      }
    } else {
      var run := Spoil(d);
      assert Possible(d, run) && !Agrees(After(d, run));
    }
  }

  /** Before the call: if the goroutine has finished, or the request takes lc.lock and the
      goroutine has taken it before, the cache agrees whatever happens. */
  lemma QuietRequestAgrees(d: Duo, run: seq<Act>)
    requires d.q.Operating? && (d.r.phase.Finished? || (d.q.locked && !d.r.phase.Queued?)) && Possible(d, run)
    ensures Agrees(After(d, run))
  {
    RunKeepsSafe(d, run);
    SafeAgrees(After(d, run));
  }

  /** A node that is paused while the goroutine of a LoadSnapshot has yet to begin: the request
      can succeed and leave a cache that does not agree. */
  lemma PauseCanDisagree(r: Race, name: string) returns (run: seq<Act>)
    requires Inv(r.net) && !r.net.stopped && r.phase.Queued? && Healthy(r.net, true) && FlagsFine(r.net)
    requires name in r.net.nodes && !r.net.nodes[name].paused
    ensures var d := Duo(r, Operating(Pause(name, 0), false));
            Possible(d, run) && After(d, run).q.Done? && !Agrees(After(d, run))
  {
    var d := Duo(r, Operating(Pause(name, 0), false));
    PauseSucceeds(r.net, name);
    var e := Step(d, Requests(""));
    assert e == Duo(r.(net := Do(r.net, Pause(name, 0))), Making(false));
    AfterOne(d, Requests(""));
    hide Enabled, Step, FlagsFine, Healthy, Agrees, Inv;
    var more := RebuildAndSpoil(e);
    AfterBoth(d, [Requests("")], more);
    run := [Requests("")] + more;
  }

  lemma PauseSucceeds(s: State, name: string)
    requires Inv(s) && !s.stopped && Healthy(s, true) && FlagsFine(s) && name in s.nodes && !s.nodes[name].paused
    ensures Failure(s, Pause(name, 0)).None?
    ensures var t := Do(s, Pause(name, 0)); Healthy(t, true) && FlagsFine(t) && t.nodes != map[]
  {
    hide TrackedFlag;
    var t := Do(s, Pause(name, 0));
    assert t.nodes == s.nodes[name := s.nodes[name].(paused := true)];
    assert name in t.nodes;
    forall n | n in s.nodes && n != name ensures s.nodes[n].pid != s.nodes[name].pid { }
    PausedFlag(s.store, s.nodes[name]);
  }

  lemma PausedFlag(store: seq<FlagMap>, node: Node)
    ensures TrackedFlag(store, node.(paused := true)) == TrackedFlag(store, node)
  {
  }
}
