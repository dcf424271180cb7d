/** Whole runs of the network, and who owns its processes. */
module Runs {
  import opened Common
  import opened Strings
  import opened Flags
  import opened Network

  /** One step of a run, with everything the outside decides in it. Resume and
      Restart have no check for a stopped network, and neither has AddUnchecked, the adding
      of a participant by an installation in progress. SetFlag and SetFile are the
      writes that installing subnets and blockchains makes into the maps of a
      node; NewFlags is a map that a caller makes for its node configurations. */
  datatype Op =
    | NewFlags(flags: FlagMap)
    | Load(conf: NetConfig, envs: nat -> AddEnv, codes: nat -> int)
    | Add(cfg: NodeConfig, e: AddEnv)
    | AddUnchecked(cfg: NodeConfig, e: AddEnv)
    | Remove(name: string, code: int)
    | Pause(name: string, code: int)
    | Resume(name: string, e: AddEnv)
    | Restart(name: string, o: Overrides, code: int, e: AddEnv)
    | CloseStop
    | StopLocked(codes: nat -> int)
    | Save(proceeds: bool, codes: nat -> int)
    | SetFlag(name: string, key: Key, value: Value)
    | SetFile(name: string, file: (FileKind, string), text: string)
    | Exit(pid: nat, code: int)

  /** The configurations given refer to flag maps that exist. */
  predicate Legal(s: State, op: Op) {
    match op
    case Load(conf, _, _) => AllAllocated(s, conf.nodes)
    case Add(c, _) => Allocated(s, c)
    case AddUnchecked(c, _) => Allocated(s, c)
    case _ => true
  }

  function Do(s: State, op: Op): State
    requires WellFormed(s) && Legal(s, op)
  {
    match op
    case NewFlags(m) => s.(store := s.store + [m])
    case Load(conf, envs, codes) => LoadConfig(s, conf, envs, codes).s
    case Add(c, e) => if s.stopped then s else AddNode(s, c, e).s
    case AddUnchecked(c, e) => AddNode(s, c, e).s
    case Remove(name, code) => if s.stopped then s else RemoveNode(s, name, code).s
    case Pause(name, code) => if s.stopped then s else PauseNode(s, name, code).s
    case Resume(name, e) => ResumeNode(s, name, e).s
    case Restart(name, o, code, e) => RestartNode(s, name, o, code, e).s
    case CloseStop => s.(stopped := true)
    case StopLocked(codes) => StopAll(s, codes).s
    case Save(proceeds, codes) => if s.stopped || !proceeds then s else StopAll(s, codes).s
    case SetFlag(name, key, value) =>
      if name !in s.nodes then s
      else
        var a := s.nodes[name].cfg.flags.value;
        WriteFlags(s, a, s.store[a][key := value])
    case SetFile(name, file, text) =>
      if name !in s.nodes then s
      else
        var node := s.nodes[name];
        s.(nodes := s.nodes[name := node.(cfg := node.cfg.(files := node.cfg.files[file := text]))])
    case Exit(pid, code) =>
      if pid < |s.procs| then s.(procs := s.procs[pid := Halt(s.procs[pid], code)]) else s
  }

  // ---------- ownership ----------

  /** Every entry is stored under its own name and has a process of its own, a
      paused one a process that stopped with exit code 0; and every process that
      has not stopped belongs to the unpaused entry of its name. */
  ghost predicate Owned(nodes: map<string, Node>, procs: seq<Proc>) {
    && (forall n :: n in nodes ==> nodes[n].cfg.name == n && nodes[n].pid < |procs| && procs[nodes[n].pid].name == n)
    && (forall n :: n in nodes && nodes[n].paused ==> procs[nodes[n].pid].exit == Some(0))
    && (forall p :: 0 <= p < |procs| && procs[p].exit.None? ==>
          var n := procs[p].name;
          n in nodes && nodes[n].pid == p && !nodes[n].paused)
  }

  ghost predicate Inv(s: State) {
    WellFormed(s) && Owned(s.nodes, s.procs)
  }

  lemma OwnedInstall(nodes: map<string, Node>, procs: seq<Proc>, node: Node, proc: Proc)
    requires Owned(nodes, procs)
    requires node.pid == |procs| && !node.paused && proc.name == node.cfg.name && proc.exit.None?
    requires node.cfg.name in nodes ==> nodes[node.cfg.name].paused
    ensures Owned(nodes[node.cfg.name := node], procs + [proc])
  {
    var name, nodes', procs' := node.cfg.name, nodes[node.cfg.name := node], procs + [proc];
    forall p | 0 <= p < |procs'| && procs'[p].exit.None?
      ensures var n := procs'[p].name; n in nodes' && nodes'[n].pid == p && !nodes'[n].paused
    {
      if p < |procs| {
        assert procs'[p] == procs[p];
        var n := procs[p].name;
        assert nodes[n].pid == p && !nodes[n].paused;
      }
    }
    forall n | n in nodes' && n != name ensures nodes'[n] == nodes[n] && procs'[nodes[n].pid] == procs[nodes[n].pid] { }
  }

  lemma OwnedHalt(nodes: map<string, Node>, procs: seq<Proc>, pid: nat, code: int)
    requires Owned(nodes, procs) && pid < |procs|
    ensures Owned(nodes, procs[pid := Halt(procs[pid], code)])
  {
  }

  /** An entry whose process has stopped can be dropped. */
  lemma OwnedDrop(nodes: map<string, Node>, procs: seq<Proc>, name: string)
    requires Owned(nodes, procs) && name in nodes && procs[nodes[name].pid].exit.Some?
    ensures Owned(nodes - {name}, procs)
  {
  }

  /** An entry can change but for its name, process and mark; and it can be marked
      as paused when its process has stopped with exit code 0. */
  lemma OwnedUpdate(nodes: map<string, Node>, procs: seq<Proc>, name: string, node: Node)
    requires Owned(nodes, procs) && name in nodes
    requires node.cfg.name == name && node.pid == nodes[name].pid
    requires if node.paused then procs[node.pid].exit == Some(0) else !nodes[name].paused
    ensures Owned(nodes[name := node], procs)
  {
  }

  lemma InstallKeepsInv(s: State, x: Ready)
    requires Inv(s) && x.cfg.flags.Some? && x.cfg.flags.value < |s.store|
    requires x.cfg.name in s.nodes ==> s.nodes[x.cfg.name].paused
    ensures Inv(Install(s, x).s)
  {
    hide Owned, WellFormed;
    InstallKeepsShape(s, x);
    var s' := Install(s, x).s;
    OwnedInstall(s.nodes, s.procs, s'.nodes[x.cfg.name], s'.procs[|s.procs|]);
  }

  lemma AddNodeKeepsInv(s: State, c: NodeConfig, e: AddEnv)
    requires Inv(s) && Allocated(s, c)
    ensures Inv(AddNode(s, c, e).s)
  {
    hide Prepare, BuildArgs, StoreWithDefaults, WithDefaults, Install, Owned;
    PrepareFacts(s, c, e);
    var p := Prepare(s, c, e);
    assert WellFormed(p.s);
    if p.ready.Ok? {
      ReadyHasFlags(s, c, e, p.s, p.ready.value);
      InstallKeepsInv(p.s, p.ready.value);
    }
  }

  lemma {:induction false} AddAllKeepsInv(s: State, cs: seq<NodeConfig>, envs: nat -> AddEnv)
    requires Inv(s) && AllAllocated(s, cs)
    ensures Inv(AddAll(s, cs, envs).s)
    decreases |cs|
  {
    hide AddNode;
    if cs != [] {
      AddAllKeepsInv(s, cs[..|cs| - 1], envs);
      var first := AddAll(s, cs[..|cs| - 1], envs);
      if first.err.None? { AddNodeKeepsInv(first.s, cs[|cs| - 1], envs(|cs| - 1)); }
    }
  }

  lemma RemoveKeepsInv(s: State, name: string, code: int)
    requires Inv(s)
    ensures Inv(RemoveNode(s, name, code).s)
  {
    hide WithoutId;
    if name in s.nodes {
      var pid := s.nodes[name].pid;
      var procs' := s.procs[pid := Halt(s.procs[pid], code)];
      OwnedHalt(s.nodes, s.procs, pid, code);
      hide Owned;
      if s.nodes[name].paused { StoppedDrop(s, name); } else { OwnedDrop(s.nodes, procs', name); }
    }
  }

  lemma StoppedDrop(s: State, name: string)
    requires Inv(s) && name in s.nodes && s.nodes[name].paused
    ensures Owned(s.nodes - {name}, s.procs)
  {
    OwnedDrop(s.nodes, s.procs, name);
  }

  lemma PauseKeepsInv(s: State, name: string, code: int)
    requires Inv(s)
    ensures Inv(PauseNode(s, name, code).s)
  {
    if name in s.nodes && !s.nodes[name].paused {
      var node := s.nodes[name];
      var procs' := s.procs[node.pid := Halt(s.procs[node.pid], code)];
      OwnedHalt(s.nodes, s.procs, node.pid, code);
      assert node.cfg.name == name;
      hide Owned;
      if ExitCode(s.procs[node.pid], code) == 0 {
        OwnedUpdate(s.nodes, procs', name, node.(paused := true));
      }
    }
  }

  lemma ResumeKeepsInv(s: State, name: string, e: AddEnv)
    requires Inv(s)
    ensures Inv(ResumeNode(s, name, e).s)
  {
    hide AddNode, Pinned, Owned;
    if name in s.nodes && s.nodes[name].paused {
      var node := s.nodes[name];
      var a := node.cfg.flags.value;
      AddNodeKeepsInv(WriteFlags(s, a, PinnedFor(s.store[a], node)), node.cfg, e);
    }
  }

  lemma OverriddenKeepsInv(s: State, name: string, o: Overrides)
    requires Inv(s) && name in s.nodes
    ensures Inv(Overridden(s, name, o))
  {
    hide PinnedFor, OverriddenFlags;
    OwnedUpdate(s.nodes, s.procs, name, Overridden(s, name, o).nodes[name]);
  }

  lemma RestartKeepsInv(s: State, name: string, o: Overrides, code: int, e: AddEnv)
    requires Inv(s)
    ensures Inv(RestartNode(s, name, o, code, e).s)
  {
    hide AddNode, PinnedFor, OverriddenFlags, RemoveNode, Owned;
    if name in s.nodes {
      var s1 := Overridden(s, name, o);
      var node := s1.nodes[name];
      OverriddenKeepsInv(s, name, o);
      var c := if o.binaryPath != "" then node.cfg.(binaryPath := o.binaryPath) else node.cfg;
      if node.paused {
        AddNodeKeepsInv(s1, c, e);
      } else {
        RemoveKeepsInv(s1, name, code);
        RemoveKeepsStore(s1, name, code);
        var removed := RemoveNode(s1, name, code);
        if removed.err.None? { AddNodeKeepsInv(removed.s, c, e); }
      }
    }
  }

  lemma RemoveKeepsStore(s: State, name: string, code: int)
    requires WellFormed(s)
    ensures RemoveNode(s, name, code).s.store == s.store
  {
  }

  lemma StopAllKeepsInv(s: State, codes: nat -> int)
    requires Inv(s)
    ensures Inv(StopAll(s, codes).s)
    ensures forall p :: 0 <= p < |s.procs| ==> StopAll(s, codes).s.procs[p].exit.Some?
  {
    var s' := StopAll(s, codes).s;
    forall p | 0 <= p < |s.procs| ensures s'.procs[p].exit.Some? {
      if s.procs[p].exit.None? {
        assert p in LivePids(s.nodes);
      }
    }
  }

  lemma OpKeepsInv(s: State, op: Op)
    requires Inv(s) && Legal(s, op)
    ensures Inv(Do(s, op))
  {
    hide AddNode, LoadConfig, RemoveNode, PauseNode, ResumeNode, RestartNode, StopAll, Owned;
    match op
    case Load(conf, envs, codes) => LoadKeepsInv(s, conf, envs, codes);
    case Add(c, e) => AddNodeKeepsInv(s, c, e);
    case AddUnchecked(c, e) => AddNodeKeepsInv(s, c, e);
    case Remove(name, code) => RemoveKeepsInv(s, name, code);
    case Pause(name, code) => PauseKeepsInv(s, name, code);
    case Resume(name, e) => ResumeKeepsInv(s, name, e);
    case Restart(name, o, code, e) => RestartKeepsInv(s, name, o, code, e);
    case StopLocked(codes) => StopAllKeepsInv(s, codes);
    case Save(proceeds, codes) => StopAllKeepsInv(s, codes);
    case SetFile(name, file, text) => SetFileKeepsInv(s, name, file, text);
    case Exit(pid, code) => if pid < |s.procs| { OwnedHalt(s.nodes, s.procs, pid, code); }
    case _ =>
  }

  lemma SetFileKeepsInv(s: State, name: string, file: (FileKind, string), text: string)
    requires Inv(s)
    ensures Inv(Do(s, SetFile(name, file, text)))
  {
    if name in s.nodes {
      OwnedUpdate(s.nodes, s.procs, name, Do(s, SetFile(name, file, text)).nodes[name]);
    }
  }

  lemma LoadKeepsInv(s: State, conf: NetConfig, envs: nat -> AddEnv, codes: nat -> int)
    requires Inv(s) && AllAllocated(s, conf.nodes)
    ensures Inv(LoadConfig(s, conf, envs, codes).s)
  {
    hide AddAll, StopAll, Owned, StartOrder;
    if ValidConfig(s.site, conf) {
      StartOrderAllocated(s, conf.nodes);
      var s1 := WithNetDefaults(s, conf);
      AddAllKeepsInv(s1, StartOrder(conf.nodes), envs);
      StopAllKeepsInv(AddAll(s1, StartOrder(conf.nodes), envs).s, codes);
    }
  }

  /** The steps can be taken one after the other. */
  ghost predicate Possible(s: State, ops: seq<Op>)
    requires Inv(s)
    decreases |ops|
  {
    ops == [] || (Legal(s, ops[0]) && (OpKeepsInv(s, ops[0]); Possible(Do(s, ops[0]), ops[1..])))
  }

  ghost function Run(s: State, ops: seq<Op>): State
    requires Inv(s) && Possible(s, ops)
    decreases |ops|
  {
    if ops == [] then s else (OpKeepsInv(s, ops[0]); Run(Do(s, ops[0]), ops[1..]))
  }

  lemma {:induction false} RunKeepsInv(s: State, ops: seq<Op>)
    requires Inv(s) && Possible(s, ops)
    ensures Inv(Run(s, ops))
    decreases |ops|
  {
    hide Do;
    if ops != [] {
      OpKeepsInv(s, ops[0]);
      RunKeepsInv(Do(s, ops[0]), ops[1..]);
    }
  }

  /** A network as newNetwork makes it. */
  function NewNetwork(site: Site, rootDir: string): State {
    State(site, rootDir, "", map[], map[], map[], [], 1, false, [], [])
  }

  /** No run leaves an orphan behind, however its steps fail: every process that
      has not stopped is the process of exactly one entry, that entry has the
      name the process was started under and is not paused, and the process of a
      paused entry has stopped with exit code 0. */
  lemma NoOrphans(site: Site, rootDir: string, ops: seq<Op>)
    requires Possible(NewNetwork(site, rootDir), ops)
    ensures var s := Run(NewNetwork(site, rootDir), ops);
            && (forall p :: 0 <= p < |s.procs| && s.procs[p].exit.None? ==>
                  (forall n :: n in s.nodes && s.nodes[n].pid == p <==> n == s.procs[p].name)
                  && !s.nodes[s.procs[p].name].paused)
            && (forall n :: n in s.nodes ==> s.nodes[n].cfg.name == n && s.nodes[n].pid < |s.procs|)
            && (forall n :: n in s.nodes && s.nodes[n].paused ==> s.procs[s.nodes[n].pid].exit == Some(0))
  {
    hide Do;
    var s := Run(NewNetwork(site, rootDir), ops);
    RunKeepsInv(NewNetwork(site, rootDir), ops);
    forall p | 0 <= p < |s.procs| && s.procs[p].exit.None?
      ensures (forall n :: n in s.nodes && s.nodes[n].pid == p <==> n == s.procs[p].name)
      ensures !s.nodes[s.procs[p].name].paused
    {
      assert s.procs[p].name in s.nodes;
    }
  }

  // ---------- stop is permanent ----------

  lemma AddNodeOnlyAdds(s: State, c: NodeConfig, e: AddEnv)
    requires Allocated(s, c)
    ensures var s' := AddNode(s, c, e).s;
            && s'.stopped == s.stopped && s'.netFlags == s.netFlags && s'.site == s.site && s'.rootDir == s.rootDir
            && s'.nextSuffix >= s.nextSuffix
            && (forall n :: n in s.nodes ==> n in s'.nodes && (!s.nodes[n].paused ==> s'.nodes[n] == s.nodes[n]))
  {
    hide Prepare, BuildArgs, StoreWithDefaults, WithDefaults;
    PrepareFacts(s, c, e);
  }

  /** After the locked part of Stop nothing comes back. */
  ghost predicate ShutDown(s: State) {
    s.stopped && s.nodes == map[] && (forall p :: 0 <= p < |s.procs| ==> s.procs[p].exit.Some?)
  }

  lemma {:induction false} ShutDownLasts(s: State, ops: seq<Op>)
    requires Inv(s) && Possible(s, ops) && ShutDown(s) && forall op :: op in ops ==> !op.Load? && !op.AddUnchecked?
    ensures ShutDown(Run(s, ops))
    decreases |ops|
  {
    if ops != [] {
      OpKeepsInv(s, ops[0]);
      assert ShutDown(Do(s, ops[0])) by { hide AddNode, AddAll; }
      ShutDownLasts(Do(s, ops[0]), ops[1..]);
    }
  }

  lemma {:induction false} AddAllKeepsLatch(s: State, cs: seq<NodeConfig>, envs: nat -> AddEnv)
    requires AllAllocated(s, cs)
    ensures AddAll(s, cs, envs).s.stopped == s.stopped
    decreases |cs|
  {
    hide AddNode;
    if cs != [] {
      AddAllKeepsLatch(s, cs[..|cs| - 1], envs);
      var first := AddAll(s, cs[..|cs| - 1], envs);
      if first.err.None? { AddNodeOnlyAdds(first.s, cs[|cs| - 1], envs(|cs| - 1)); }
    }
  }

  lemma OpKeepsLatch(s: State, op: Op)
    requires Inv(s) && Legal(s, op) && s.stopped
    ensures Do(s, op).stopped
  {
    hide AddNode, AddAll, StartOrder, OverriddenFlags, Pinned, WithoutId, Owned;
    match op
    case Load(conf, envs, codes) =>
      StartOrderAllocated(s, conf.nodes);
      AddAllKeepsLatch(WithNetDefaults(s, conf), StartOrder(conf.nodes), envs);
    case AddUnchecked(c, e) => AddNodeOnlyAdds(s, c, e);
    case Resume(name, e) =>
      if name in s.nodes && s.nodes[name].paused {
        var a := s.nodes[name].cfg.flags.value;
        AddNodeOnlyAdds(WriteFlags(s, a, PinnedFor(s.store[a], s.nodes[name])), s.nodes[name].cfg, e);
      }
    case Restart(name, o, code, e) =>
      if name in s.nodes {
        var s1 := Overridden(s, name, o);
        var c := if o.binaryPath != "" then s1.nodes[name].cfg.(binaryPath := o.binaryPath) else s1.nodes[name].cfg;
        if s1.nodes[name].paused { AddNodeOnlyAdds(s1, c, e); }
        else { AddNodeOnlyAdds(RemoveNode(s1, name, code).s, c, e); }
      }
    case _ =>
  }

  lemma {:induction false} RunKeepsLatch(s: State, ops: seq<Op>)
    requires Inv(s) && Possible(s, ops) && s.stopped
    ensures Run(s, ops).stopped
    decreases |ops|
  {
    hide Do;
    if ops != [] {
      OpKeepsInv(s, ops[0]);
      OpKeepsLatch(s, ops[0]);
      RunKeepsLatch(Do(s, ops[0]), ops[1..]);
    }
  }

  lemma {:induction false} RunAppend(s: State, a: seq<Op>, b: seq<Op>)
    requires Inv(s) && Possible(s, a + b)
    ensures Possible(s, a) && Inv(Run(s, a)) && Possible(Run(s, a), b) && Run(s, a + b) == Run(Run(s, a), b)
    decreases |a|
  {
    hide Do, Owned;
    if a == [] {
      assert a + b == b;
    } else {
      assert (a + b)[1..] == a[1..] + b;
      OpKeepsInv(s, a[0]);
      RunAppend(Do(s, a[0]), a[1..], b);
    }
  }

  /** Stop is two steps: the latch is closed, later the locked part runs. Whatever
      happens before, between (a node may be restarted, an installation in progress may
      add one) and after, whatever the processes exit with: at the end there are no nodes
      and no process runs. An installation holds the lock of the network, so none is in
      progress after the locked part, and a new one is refused. */
  lemma StopIsPermanent(site: Site, rootDir: string, before: seq<Op>, between: seq<Op>, codes: nat -> int, after: seq<Op>)
    requires Possible(NewNetwork(site, rootDir), before + ([CloseStop] + (between + ([StopLocked(codes)] + after))))
    requires forall op :: op in after ==> !op.Load? && !op.AddUnchecked?
    ensures ShutDown(Run(NewNetwork(site, rootDir), before + ([CloseStop] + (between + ([StopLocked(codes)] + after)))))
  {
    var s := NewNetwork(site, rootDir);
    assert Inv(s);
    hide Inv, StopAll, Run, Possible;
    RunAppend(s, before, [CloseStop] + (between + ([StopLocked(codes)] + after)));
    var s1 := Run(s, before);
    RunAppend(s1, [CloseStop], between + ([StopLocked(codes)] + after));
    RunOne(s1, CloseStop);
    var s2 := Run(s1, [CloseStop]);
    RunAppend(s2, between, [StopLocked(codes)] + after);
    RunKeepsLatch(s2, between);
    var s3 := Run(s2, between);
    RunAppend(s3, [StopLocked(codes)], after);
    RunOne(s3, StopLocked(codes));
    StopShutsDown(s3, codes);
    ShutDownLasts(Run(s3, [StopLocked(codes)]), after);
  }

  lemma RunOne(s: State, op: Op)
    requires Inv(s) && Possible(s, [op])
    ensures Legal(s, op) && Run(s, [op]) == Do(s, op)
  {
    hide Do, Owned;
    OpKeepsInv(s, op);
    assert [op][1..] == [];
    assert Run(Do(s, op), []) == Do(s, op);
  }

  lemma StopShutsDown(s: State, codes: nat -> int)
    requires Inv(s) && s.stopped
    ensures ShutDown(Do(s, StopLocked(codes)))
  {
    StopAllKeepsInv(s, codes);
  }

  // ---------- names ----------

  /** The n-th generated name: "node" and the number. */
  predicate Generated(name: string, n: nat) {
    |name| > 4 && name[..4] == "node" && Says(name[4..], n)
  }

  lemma GeneratedIs(name: string, n: nat)
    ensures Generated(name, n) <==> name == NodeName(n)
  {
    DecimalSays(n);
    assert NodeName(n)[..4] == "node" && NodeName(n)[4..] == Decimal(n);
    if Generated(name, n) {
      SaidOneWay(name[4..]);
      assert name == name[..4] + name[4..];
    }
  }

  /** A node that is added under no name gets the least free generated name at or
      above the counter, and the counter never goes down; and no entry that is
      not paused is ever overwritten. */
  lemma GeneratedNameIsLeastFree(s: State, c: NodeConfig, e: AddEnv)
    requires Allocated(s, c) && c.name == ""
    ensures var s' := AddNode(s, c, e).s;
            && s'.nextSuffix >= s.nextSuffix
            && (s'.nodes != s.nodes ==>
                  exists name ::
                    && Generated(name, s'.nextSuffix) && name !in s.nodes && s'.nodes.Keys == s.nodes.Keys + {name}
                    && (forall m: nat, x :: s.nextSuffix <= m < s'.nextSuffix && Generated(x, m) ==> x in s.nodes)
                    && (forall n :: n in s.nodes ==> s'.nodes[n] == s.nodes[n]))
  {
    hide BuildArgs, StoreWithDefaults, NodeName, Generated;
    PrepareFacts(s, c, e);
    var s' := AddNode(s, c, e).s;
    if s'.nodes != s.nodes {
      GeneratedIs(NodeName(s'.nextSuffix), s'.nextSuffix);
      forall m: nat, x | s.nextSuffix <= m < s'.nextSuffix && Generated(x, m) ensures x in s.nodes { GeneratedIs(x, m); }
    }
  }

  /** The first generated name of a new network is "node1". */
  lemma FirstGeneratedName(site: Site, rootDir: string, c: NodeConfig, e: AddEnv)
    requires c.name == "" && c.flags.None?
    ensures var s := AddNode(NewNetwork(site, rootDir), c, e).s; s.nodes == map[] || s.nodes.Keys == {"node1"}
  {
    hide BuildArgs, StoreWithDefaults;
    PrepareFacts(NewNetwork(site, rootDir), c, e);
    assert NodeName(1) == "node1" by { assert Decimal(1) == "1"; }
  }
}
