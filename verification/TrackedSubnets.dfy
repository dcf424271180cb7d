/** The list of tracked subnets in a node's flags, and the restart of the nodes
    after new subnets were created (restartNodes in local/blockchain.go). */
module TrackedSubnets {
  import opened Common
  import opened Strings
  import opened Flags
  import opened Network
  import opened Runs
  import opened BeaconSet
  import opened LocalNetworks

  // ---------- the list ----------

  /** What restartNodes reads out of a tracked flag: an empty flag is an empty set. */
  function TrackedSet(list: string): set<string> {
    if list == "" then {} else Elements(Split(list, ','))
  }

  /** The flag after the subnets ids were added. */
  ghost function TrackedAfter(list: string, ids: set<string>): string {
    Join(Sorted(TrackedSet(list) + ids), ',')
  }

  ghost predicate CommaFree(ids: set<string>) {
    forall x :: x in ids ==> ',' !in x
  }

  lemma TrackedSetCommaFree(list: string)
    ensures CommaFree(TrackedSet(list))
  {
  }

  /** Joining and splitting again gives the sorted elements back, but for the set
      of only the empty string, which comes back as the empty set. */
  lemma JoinSorted(s: set<string>)
    requires CommaFree(s)
    ensures s != {} && s != {""} ==> Split(Join(Sorted(s), ','), ',') == Sorted(s)
    ensures TrackedSet(Join(Sorted(s), ',')) == if s == {""} then {} else s
  {
    var l := Sorted(s);
    assert forall x :: x in l <==> x in Elements(l);
    if l == [] {
      assert s == {};
    } else {
      assert l[0] in l;
      SplitJoin(l, ',');
      if |l| == 1 {
        assert l == [l[0]] && Elements(l) == {l[0]};
      } else {
        assert l[1] in l;
        LessTotal(l[0], l[1]);
        assert l[0] != l[1];
      }
    }
  }

  /** A flag tracks a subnet. */
  predicate Tracks(list: string, subnet: string) {
    list != "" && subnet in Split(list, ',')
  }

  /** A flag of nothing but commas. */
  predicate OnlyCommas(list: string) {
    list != "" && forall x :: x in Split(list, ',') ==> x == ""
  }

  lemma TrackedSetMeans(list: string)
    ensures forall x :: x in TrackedSet(list) <==> Tracks(list, x)
    ensures TrackedSet(list) == {""} <==> OnlyCommas(list)
  {
    if list != "" {
      assert Split(list, ',')[0] in Split(list, ',');
      if OnlyCommas(list) { assert Tracks(list, ""); }
      if TrackedSet(list) == {""} {
        forall x | x in Split(list, ',') ensures x == "" { assert x in TrackedSet(list); }
      }
    }
  }

  /** The new flag tracks exactly the subnets the old one did and the added ones, in strictly
      sorted order. The only flag this fails for is one of nothing but commas to which
      nothing is added. */
  lemma TrackedAfterMeans(list: string, ids: set<string>)
    requires CommaFree(ids) && "" !in ids
    ensures (forall x :: Tracks(TrackedAfter(list, ids), x) <==> Tracks(list, x) || x in ids)
            <==> !(ids == {} && OnlyCommas(list))
    ensures StrictlySorted(Split(TrackedAfter(list, ids), ','))
  {
    TrackedSetCommaFree(list);
    TrackedSetMeans(list);
    var all, after := TrackedSet(list) + ids, TrackedAfter(list, ids);
    TrackedSetMeans(after);
    JoinSorted(all);
    assert forall x :: x in all <==> Tracks(list, x) || x in ids;
    if all == {""} {
      assert forall x :: x in ids ==> x in all;
      assert ids == {};
      assert "" in all;
      JoinEmpty(all);
    } else if all == {} {
      JoinEmpty(all);
    } else {
      assert TrackedSet(after) == all;
      var x :| x in all;
      assert ids == {} && OnlyCommas(list) ==> all == {""};
    }
  }

  /** Adding the same subnets a second time changes nothing. */
  lemma TrackedAfterIdempotent(list: string, ids: set<string>)
    requires CommaFree(ids)
    ensures TrackedAfter(TrackedAfter(list, ids), ids) == TrackedAfter(list, ids)
  {
    TrackedSetCommaFree(list);
    var all := TrackedSet(list) + ids;
    JoinSorted(all);
    if all == {""} {
      assert {} + ids == ids;
      assert ids == {} || ids == {""};
      JoinEmpty(ids);
      JoinEmpty(all);
    } else {
      assert all + ids == all;
    }
  }

  lemma JoinEmpty(s: set<string>)
    requires s <= {""}
    ensures Join(Sorted(s), ',') == ""
  {
    var l: seq<string> := if s == {} then [] else [""];
    assert StrictlySorted(l) && Elements(l) == s;
    SortedUnique(Sorted(s), l);
  }

  // ---------- restarting one node ----------

  /** No two nodes share a Flags map. */
  ghost predicate Unshared(nodes: map<string, Node>) {
    forall m, n :: m in nodes && n in nodes && nodes[m].cfg.flags == nodes[n].cfg.flags ==> m == n
  }

  /** The process was told the tracked subnets, under the name its version knows. */
  predicate Told(p: Proc, list: string) {
    || (TrackSubnets in p.args && p.args[TrackSubnets] == list)
    || (WhitelistedSubnets in p.args && p.args[WhitelistedSubnets] == list)
  }

  /** A successful start of a configuration with a name: one new process, which is
      told what the node's flags track; only the node's own entry and flags change. */
  lemma StartEffect(s: State, c: NodeConfig, e: AddEnv)
    requires Allocated(s, c) && c.flags.Some? && c.name != "" && AddNode(s, c, e).err.None?
    ensures var r, a := AddNode(s, c, e).s, c.flags.value;
            && r.store == s.store[a := s.netFlags + s.store[a]]
            && c.name in r.nodes && r.nodes == s.nodes[c.name := r.nodes[c.name]]
            && r.nodes[c.name].cfg.flags == c.flags && !r.nodes[c.name].paused && r.nodes[c.name].pid == |s.procs|
            && r.nodes[c.name].cfg.files == s.files + c.files
            && (c.cert != "" ==> s.site.idOf(c.cert) == Some(r.nodes[c.name].id))
            && |r.procs| == |s.procs| + 1 && r.procs[..|s.procs|] == s.procs
            && r.netFlags == s.netFlags
            && (TrackSubnets in r.store[a] && r.store[a][TrackSubnets].Str? && r.store[a][TrackSubnets].s != "" ==>
                  Told(r.procs[|s.procs|], r.store[a][TrackSubnets].s))
  {
    hide Prepare, BuildArgs, Clashes;
    PrepareFacts(s, c, e);
    var p := Prepare(s, c, e);
    var a := c.flags.value;
    var flags := p.s.store[a];
    if TrackSubnets in flags && flags[TrackSubnets].Str? && flags[TrackSubnets].s != "" {
      TrackedIsPassed(s.site, s.beacons, flags, c.configFile, Paths.JoinPath(s.rootDir, c.name), e.args);
    }
  }

  /** The same for a node that is started again from its entry. */
  ghost predicate StartedAgain(s: State, r: State, name: string)
    requires WellFormed(s) && name in s.nodes
  {
    var node, a := s.nodes[name], s.nodes[name].cfg.flags.value;
    && |r.store| == |s.store|
    && (forall b :: 0 <= b < |s.store| && b != a ==> r.store[b] == s.store[b])
    && (TrackSubnets in s.store[a] ==> TrackSubnets in r.store[a] && r.store[a][TrackSubnets] == s.store[a][TrackSubnets])
    && r.nodes.Keys == s.nodes.Keys
    && (forall n :: n in s.nodes && n != name ==> r.nodes[n] == s.nodes[n])
    && r.nodes[name].cfg.flags == node.cfg.flags && !r.nodes[name].paused && r.nodes[name].pid == |s.procs|
    && r.nodes[name].cfg.files == s.files + node.cfg.files && r.nodes[name].id == node.id
    && |r.procs| == |s.procs| + 1
    && (forall p :: 0 <= p < |s.procs| ==> r.procs[p].args == s.procs[p].args)
    && (TrackSubnets in s.store[a] && s.store[a][TrackSubnets].Str? && s.store[a][TrackSubnets].s != "" ==>
          Told(r.procs[|s.procs|], s.store[a][TrackSubnets].s))
  }

  lemma PinnedKeepsTracked(network: FlagMap, flags: FlagMap, node: Node)
    ensures var all := network + PinnedFor(flags, node);
            TrackSubnets in flags ==> TrackSubnets in all && all[TrackSubnets] == flags[TrackSubnets]
  {
  }

  /** Without overrides a restart first writes the node's place into its flags, and nothing else. */
  lemma NothingOverridden(s: State, name: string)
    requires WellFormed(s) && name in s.nodes
    ensures var a := s.nodes[name].cfg.flags.value;
            Overridden(s, name, NO_OVERRIDES) == WriteFlags(s, a, PinnedFor(s.store[a], s.nodes[name]))
  {
    hide PinnedFor;
    assert s.nodes[name].cfg.files + map[] == s.nodes[name].cfg.files;
    assert s.nodes[name := s.nodes[name]] == s.nodes;
  }

  lemma RestartStartsAgain(s: State, name: string, code: int, e: AddEnv)
    requires WellFormed(s) && Identified(s) && name in s.nodes && !s.nodes[name].paused
    requires RestartNode(s, name, NO_OVERRIDES, code, e).err.None?
    ensures StartedAgain(s, RestartNode(s, name, NO_OVERRIDES, code, e).s, name)
  {
    hide AddNode, RemoveNode, PinnedFor, Told, Overridden;
    NothingOverridden(s, name);
    var s1 := Overridden(s, name, NO_OVERRIDES);
    var c := s.nodes[name].cfg;
    var a := c.flags.value;
    RemoveFacts(s1, name, code);
    RemoveKeepsArgs(s1, name, code);
    var s2 := RemoveNode(s1, name, code).s;
    StartEffect(s2, c, e);
    var r := AddNode(s2, c, e).s;
    PinnedKeepsTracked(s.netFlags, s.store[a], s.nodes[name]);
    assert r.store[a] == s.netFlags + PinnedFor(s.store[a], s.nodes[name]);
    forall p | 0 <= p < |s.procs| ensures r.procs[p].args == s.procs[p].args {
      assert r.procs[p] == r.procs[..|s2.procs|][p];
    }
    assert r.nodes.Keys == s.nodes.Keys;
  }

  /** The ways in which a restart can fail. */
  lemma RestartErrors(s: State, name: string, o: Overrides, code: int, e: AddEnv)
    requires WellFormed(s)
    ensures var err := RestartNode(s, name, o, code, e).err;
            err.None? || BeforeStart(err.value) || err.value in {DuplicateBeacon, NodeNotFound, NonZeroExit}
  {
    hide AddNode, RemoveNode, Overridden, WellFormed;
    if name in s.nodes {
      OverriddenKeepsShape(s, name, o);
      var s1 := Overridden(s, name, o);
      var c := RestartConfig(s1.nodes[name], o);
      if s1.nodes[name].paused {
        AllocatedIn(s1, name, c);
        AddNodeErrors(s1, c, e);
      } else {
        RemoveErrors(s1, name, code);
        RemoveKeepsStore(s1, name, code);
        AllocatedIn(s1, name, c);
        AddNodeErrors(RemoveNode(s1, name, code).s, c, e);
      }
    }
  }

  lemma AllocatedIn(s: State, name: string, c: NodeConfig)
    requires WellFormed(s) && name in s.nodes && c.flags == s.nodes[name].cfg.flags
    ensures Allocated(s, c)
  {
  }

  lemma RemoveErrors(s: State, name: string, code: int)
    requires WellFormed(s)
    ensures RemoveNode(s, name, code).err in {None, Some(NodeNotFound), Some(NonZeroExit)}
  {
  }

  lemma RemoveKeepsArgs(s: State, name: string, code: int)
    requires WellFormed(s)
    ensures var r := RemoveNode(s, name, code).s;
            |r.procs| == |s.procs| && (forall p :: 0 <= p < |s.procs| ==> r.procs[p].args == s.procs[p].args)
  {
    hide WithoutId;
  }

  /** A node that is paused when its list changes is started with the new list when
      it is resumed. */
  lemma ResumeUsesTracked(s: State, name: string, e: AddEnv, list: string)
    requires WellFormed(s) && Identified(s) && name in s.nodes && list != ""
    requires var flags := s.store[s.nodes[name].cfg.flags.value]; TrackSubnets in flags && flags[TrackSubnets] == Str(list)
    requires ResumeNode(s, name, e).err.None?
    ensures var r := ResumeNode(s, name, e).s;
            name in r.nodes && r.nodes[name].pid == |s.procs| && |s.procs| < |r.procs| && Told(r.procs[|s.procs|], list)
  {
    hide AddNode, PinnedFor, Told;
    var node := s.nodes[name];
    var a := node.cfg.flags.value;
    var s1 := WriteFlags(s, a, PinnedFor(s.store[a], node));
    StartEffect(s1, node.cfg, e);
    PinnedKeepsTracked(s.netFlags, s.store[a], node);
  }

  // ---------- restartNodes ----------

  /** network.SubnetSpec. */
  datatype SubnetSpec = SubnetSpec(participants: seq<string>, config: Option<string>)

  /** The created subnets a node takes part in; specs[i] belongs to ids[i]. */
  ghost function NewFor(ids: seq<string>, specs: seq<SubnetSpec>, name: string): set<string>
    requires |ids| <= |specs|
  {
    set i | 0 <= i < |ids| && name in specs[i].participants :: ids[i]
  }

  lemma NewForNext(ids: seq<string>, specs: seq<SubnetSpec>, name: string, k: nat)
    requires k < |ids| <= |specs|
    ensures NewFor(ids[..k + 1], specs, name)
         == NewFor(ids[..k], specs, name) + (if name in specs[k].participants then {ids[k]} else {})
  {
    forall x ensures x in NewFor(ids[..k + 1], specs, name)
                     <==> x in NewFor(ids[..k], specs, name) || (name in specs[k].participants && x == ids[k])
    {
      if x in NewFor(ids[..k + 1], specs, name) {
        var i :| 0 <= i < |ids[..k + 1]| && name in specs[i].participants && ids[..k + 1][i] == x;
        if i < k { assert ids[..k][i] == x; }
      }
      if x in NewFor(ids[..k], specs, name) {
        var i :| 0 <= i < |ids[..k]| && name in specs[i].participants && ids[..k][i] == x;
        assert ids[..k + 1][i] == x;
      }
      if name in specs[k].participants && x == ids[k] { assert ids[..k + 1][k] == x; }
    }
  }

  lemma NewForSome(ids: seq<string>, specs: seq<SubnetSpec>, name: string)
    requires |ids| <= |specs|
    ensures NewFor(ids, specs, name) == {} <==> forall i :: 0 <= i < |ids| ==> name !in specs[i].participants
  {
    if i :| 0 <= i < |ids| && name in specs[i].participants { assert ids[i] in NewFor(ids, specs, name); }
  }

  /** The part of restartNodes that works on one list. */
  method TrackFor(list: string, ids: seq<string>, specs: seq<SubnetSpec>, name: string)
    returns (after: string, takesPart: bool)
    requires |ids| <= |specs|
    ensures after == TrackedAfter(list, NewFor(ids, specs, name)) && takesPart == (NewFor(ids, specs, name) != {})
  {
    var tracked: set<string> := {};
    if list != "" {
      var pieces := Split(list, ',');
      for i := 0 to |pieces|
        invariant tracked == Elements(pieces[..i])
      {
        tracked := tracked + {pieces[i]};
        assert pieces[..i + 1] == pieces[..i] + [pieces[i]];
      }
      assert pieces[..|pieces|] == pieces;
    }
    ghost var before := tracked;
    assert before == TrackedSet(list);
    takesPart := false;
    for i := 0 to |ids|
      invariant tracked == before + NewFor(ids[..i], specs, name)
      invariant takesPart == (NewFor(ids[..i], specs, name) != {})
    {
      NewForNext(ids, specs, name, i);
      ghost var start, was := tracked, takesPart;
      for j := 0 to |specs[i].participants|
        invariant tracked == start + (if name in specs[i].participants[..j] then {ids[i]} else {})
        invariant takesPart == (was || name in specs[i].participants[..j])
      {
        assert specs[i].participants[..j + 1] == specs[i].participants[..j] + [specs[i].participants[j]];
        if specs[i].participants[j] == name {
          tracked := tracked + {ids[i]};
          takesPart := true;
        }
      }
      assert specs[i].participants[..|specs[i].participants|] == specs[i].participants;
    }
    assert ids[..|ids|] == ids;
    var sorted := SortedList(tracked);
    SortedUnique(sorted, Sorted(tracked));
    after := Join(sorted, ',');
  }

  /** The tracked subnets in a flag map; none if the flag is missing. */
  function ListIn(flags: FlagMap): string {
    if TrackSubnets in flags && flags[TrackSubnets].Str? then flags[TrackSubnets].s else ""
  }

  ghost function FlagsOf(s: State, name: string): FlagMap
    requires WellFormed(s) && name in s.nodes
  {
    s.store[s.nodes[name].cfg.flags.value]
  }

  /** What restartNodes makes of one node. */
  ghost predicate NodeDone(s: State, r: State, name: string, ids: seq<string>, specs: seq<SubnetSpec>)
    requires WellFormed(s) && WellFormed(r) && name in s.nodes && name in r.nodes && |ids| <= |specs|
  {
    var added := NewFor(ids, specs, name);
    var list := TrackedAfter(ListIn(FlagsOf(s, name)), added);
    && TrackSubnets in FlagsOf(r, name) && FlagsOf(r, name)[TrackSubnets] == Str(list)
    && (TrackSubnets in FlagsOf(s, name) ==> FlagsOf(s, name)[TrackSubnets].Str?)
    && (added != {} && list != "" && !s.nodes[name].paused ==>
          r.nodes[name].pid >= |s.procs| && Told(r.procs[r.nodes[name].pid], list))
  }

  ghost predicate Untouched(s: State, r: State, name: string)
    requires WellFormed(s) && WellFormed(r) && name in s.nodes && name in r.nodes
  {
    r.nodes[name] == s.nodes[name] && FlagsOf(r, name) == FlagsOf(s, name)
  }

  /** The entries keep their names, their IDs, their flag maps and their marks. */
  ghost predicate SameEntries(s: State, r: State) {
    && r.nodes.Keys == s.nodes.Keys && |r.store| == |s.store| && |r.procs| >= |s.procs|
    && (forall n :: n in s.nodes ==>
          r.nodes[n].cfg.flags == s.nodes[n].cfg.flags && r.nodes[n].paused == s.nodes[n].paused && r.nodes[n].id == s.nodes[n].id)
  }

  /** What holds of a network at all times: BeaconSet.OpIdentified and Runs.OpKeepsInv. */
  ghost predicate Good(s: State) {
    Inv(s) && Identified(s)
  }

  /** The flag is written into the node's map, in place. */
  function WithList(s: State, name: string, list: string): State
    requires WellFormed(s) && name in s.nodes
  {
    var a := s.nodes[name].cfg.flags.value;
    WriteFlags(s, a, s.store[a][TrackSubnets := Str(list)])
  }

  lemma WriteKeepsOthers(s0: State, s: State, name: string, list: string, n: string, ids: seq<string>, specs: seq<SubnetSpec>)
    requires WellFormed(s0) && Unshared(s0.nodes) && WellFormed(s) && SameEntries(s0, s)
    requires name in s0.nodes && n in s0.nodes && n != name
    requires |ids| <= |specs|
    ensures WellFormed(WithList(s, name, list)) && SameEntries(s0, WithList(s, name, list))
    ensures NodeDone(s0, s, n, ids, specs) ==> NodeDone(s0, WithList(s, name, list), n, ids, specs)
    ensures Untouched(s0, s, n) ==> Untouched(s0, WithList(s, name, list), n)
  {
    hide Owned, Identified, NewFor, TrackedAfter, Told;
    assert s.nodes[n].cfg.flags != s.nodes[name].cfg.flags;
    var a, b := s.nodes[n].cfg.flags.value, s.nodes[name].cfg.flags.value;
    assert a != b;
    assert WithList(s, name, list).store[a] == s.store[a];
  }

  lemma RestartKeepsOthers(s0: State, s: State, r: State, name: string, n: string, ids: seq<string>, specs: seq<SubnetSpec>)
    requires WellFormed(s0) && Unshared(s0.nodes) && WellFormed(s) && WellFormed(r) && SameEntries(s0, s)
    requires name in s0.nodes && n in s0.nodes && n != name
    requires StartedAgain(s, r, name) && |ids| <= |specs| && n in r.nodes
    ensures NodeDone(s0, s, n, ids, specs) ==> NodeDone(s0, r, n, ids, specs)
    ensures Untouched(s0, s, n) ==> Untouched(s0, r, n)
  {
    hide Owned, Identified, NewFor, TrackedAfter;
    assert s.nodes[n].cfg.flags != s.nodes[name].cfg.flags;
    var a, b := s.nodes[n].cfg.flags.value, s.nodes[name].cfg.flags.value;
    assert a != b;
    assert r.nodes[n] == s.nodes[n] && r.store[a] == s.store[a];
    assert r.procs[r.nodes[n].pid].args == s.procs[s.nodes[n].pid].args;
  }

  lemma RestartSameEntries(s0: State, s: State, r: State, name: string)
    requires WellFormed(s) && SameEntries(s0, s) && name in s0.nodes && !s0.nodes[name].paused && StartedAgain(s, r, name)
    ensures SameEntries(s0, r)
  {
    hide Told, WellFormed;
  }

  /** The node itself, with its list written and, if need be, restarted. */
  lemma NodeIsDone(s0: State, s1: State, r: State, name: string, ids: seq<string>, specs: seq<SubnetSpec>)
    requires WellFormed(s0) && WellFormed(s1) && WellFormed(r) && name in s0.nodes && name in s1.nodes && name in r.nodes
    requires |ids| <= |specs| && |s1.procs| >= |s0.procs|
    requires TrackSubnets in FlagsOf(s0, name) ==> FlagsOf(s0, name)[TrackSubnets].Str?
    requires FlagsOf(s1, name) ==
             FlagsOf(s1, name)[TrackSubnets := Str(TrackedAfter(ListIn(FlagsOf(s0, name)), NewFor(ids, specs, name)))]
    requires StartedAgain(s1, r, name)
             || (r == s1 && (s0.nodes[name].paused || NewFor(ids, specs, name) == {}))
    ensures NodeDone(s0, r, name, ids, specs)
  {
    hide NewFor, TrackedAfter, Told;
  }

  /** What was done or left alone in one network state is so in another. */
  ghost predicate OthersKept(s0: State, s: State, r: State, name: string, ids: seq<string>, specs: seq<SubnetSpec>)
    requires WellFormed(s0) && WellFormed(s) && WellFormed(r) && |ids| <= |specs|
    requires forall n :: n in s0.nodes ==> n in s.nodes && n in r.nodes
  {
    forall n :: n in s0.nodes && n != name ==>
      && (NodeDone(s0, s, n, ids, specs) ==> NodeDone(s0, r, n, ids, specs))
      && (Untouched(s0, s, n) ==> Untouched(s0, r, n))
  }

  /** A node keeps its process if it is paused, or neither takes part nor is listed; and
      otherwise it runs a new one. */
  ghost predicate LeftRunning(s: State, r: State, name: string, ids: seq<string>, specs: seq<SubnetSpec>, listed: bool)
    requires name in s.nodes && name in r.nodes && |ids| <= |specs|
  {
    if s.nodes[name].paused || ((forall i :: 0 <= i < |ids| ==> name !in specs[i].participants) && !listed)
    then r.nodes[name].pid == s.nodes[name].pid
    else r.nodes[name].pid >= |s.procs|
  }

  /** No config file of a node is lost or changed. */
  ghost predicate FilesStay(before: map<string, Node>, now: map<string, Node>) {
    forall n :: n in before ==> n in now && KeptFiles(before[n].cfg.files, now[n].cfg.files)
  }

  ghost predicate KeptFiles(before: ConfigFiles, now: ConfigFiles) {
    forall f :: f in before ==> f in now && now[f] == before[f]
  }

  lemma FilesStaySame(nodes: map<string, Node>)
    ensures FilesStay(nodes, nodes)
  {
  }

  lemma FilesStayTwice(before: map<string, Node>, m: map<string, Node>, now: map<string, Node>)
    requires FilesStay(before, m) && FilesStay(m, now)
    ensures FilesStay(before, now)
  {
  }

  lemma RestartKeepsFiles(s: State, r: State, name: string)
    requires WellFormed(s) && name in s.nodes && StartedAgain(s, r, name)
    ensures FilesStay(s.nodes, r.nodes)
  {
    hide Told, WellFormed;
    assert forall n :: n in s.nodes ==> n in r.nodes.Keys;
  }

  lemma OtherPidsSame(s: State, r: State, name: string)
    requires WellFormed(s) && name in s.nodes && StartedAgain(s, r, name)
    ensures forall n :: n in s.nodes && n != name ==> n in r.nodes && r.nodes[n].pid == s.nodes[n].pid
    ensures name in r.nodes && r.nodes[name].pid == |s.procs|
  {
    hide Told, WellFormed;
    assert forall n :: n in s.nodes ==> n in r.nodes.Keys;
  }

  /** One round of the loop of restartNodes. */
  method UpdateNode(net: LocalNetwork, name: string, ids: seq<string>, specs: seq<SubnetSpec>, forced: bool,
                    e: AddEnv, code: int, ghost s0: State)
    returns (err: Option<Error>)
    requires Good(s0) && Inv(net.Contents()) && Identified(net.Contents()) && SameEntries(s0, net.Contents())
    requires name in s0.nodes && name in net.nodes && |ids| <= |specs|
    requires Unshared(s0.nodes) ==> Untouched(s0, net.Contents(), name)
    requires net.nodes[name].pid == s0.nodes[name].pid
    modifies net
    ensures Inv(net.Contents()) && Identified(net.Contents()) && err != Some(ParticipantNotInNetwork)
    ensures err.None? ==>
              && SameEntries(s0, net.Contents()) && (forall n :: n in s0.nodes ==> n in old(net.nodes) && n in net.nodes)
              && LeftRunning(s0, net.Contents(), name, ids, specs, forced) && FilesStay(old(net.nodes), net.nodes)
              && (forall n :: n in s0.nodes && n != name ==> net.nodes[n].pid == old(net.nodes)[n].pid)
    ensures err.None? && Unshared(s0.nodes) ==>
              && NodeDone(s0, net.Contents(), name, ids, specs)
              && OthersKept(s0, old(net.Contents()), net.Contents(), name, ids, specs)
  {
    hide Owned, Identified, NodeDone, Untouched, SameEntries, TrackedAfter, NewFor, StartedAgain, Network.RestartNode, Unshared,
         FilesStay;
    ghost var s := net.Contents();
    KeysSame(s0, s);
    MarkSame(s0, s, name);
    var a := net.nodes[name].cfg.flags.value;
    var before := "";
    if TrackSubnets in net.store[a] {
      if !net.store[a][TrackSubnets].Str? { return Some(WrongFlagType); }
      before := net.store[a][TrackSubnets].s;
    }
    var list, needsRestart := TrackFor(before, ids, specs, name);
    NewForSome(ids, specs, name);
    net.store := net.store[a := net.store[a][TrackSubnets := Str(list)]];
    ghost var s1 := net.Contents();
    assert s1 == WithList(s, name, list);
    WriteListFacts(s0, s, name, list);
    if Unshared(s0.nodes) { UntouchedFacts(s0, s, name); }
    forall n | Unshared(s0.nodes) && n in s0.nodes && n != name
      ensures NodeDone(s0, s, n, ids, specs) ==> NodeDone(s0, s1, n, ids, specs)
      ensures Untouched(s0, s, n) ==> Untouched(s0, s1, n)
    {
      WriteKeepsOthers(s0, s, name, list, n, ids, specs);
    }
    if forced { needsRestart := true; }
    if needsRestart && !net.nodes[name].paused {
      RestartKeepsInv(s1, name, NO_OVERRIDES, code, e);
      RestartIdentified(s1, name, NO_OVERRIDES, code, e);
      RestartErrors(s1, name, NO_OVERRIDES, code, e);
      err := net.RestartNode(name, NO_OVERRIDES, code, e);
      if err.Some? { return; }
      ghost var r := net.Contents();
      RestartStartsAgain(s1, name, code, e);
      RestartSameEntries(s0, s1, r, name);
      OtherPidsSame(s1, r, name);
      RestartKeepsFiles(s1, r, name);
      KeysSame(s0, r);
      if Unshared(s0.nodes) { NodeIsDone(s0, s1, r, name, ids, specs); }
      forall n | Unshared(s0.nodes) && n in s0.nodes && n != name
        ensures NodeDone(s0, s1, n, ids, specs) ==> NodeDone(s0, r, n, ids, specs)
        ensures Untouched(s0, s1, n) ==> Untouched(s0, r, n)
      {
        RestartKeepsOthers(s0, s1, r, name, n, ids, specs);
      }
    } else {
      if Unshared(s0.nodes) { NodeIsDone(s0, s1, s1, name, ids, specs); }
      FilesStaySame(net.nodes);
      err := None;
    }
  }

  /** restartNodes. Whatever the nodes were tracking and whichever subnets they take
      part in: after a success, if no two nodes share a Flags map, each node's flag is its old list with its new subnets,
      and a participant that is not paused runs a process that was told so. */
  method RestartNodes(net: LocalNetwork, ids: seq<string>, specs: seq<SubnetSpec>, extra: set<string>,
                      envs: nat -> AddEnv, codes: nat -> int, healthy: bool)
    returns (err: Option<Error>)
    requires Good(net.Contents()) && |ids| <= |specs|
    modifies net
    ensures Inv(net.Contents()) && Identified(net.Contents()) && err != Some(ParticipantNotInNetwork)
    ensures err.None? ==> SameEntries(old(net.Contents()), net.Contents()) && FilesStay(old(net.nodes), net.nodes) && healthy
    ensures err.None? ==> forall n :: n in old(net.nodes) ==>
              n in net.nodes && LeftRunning(old(net.Contents()), net.Contents(), n, ids, specs, n in extra)
    ensures err.None? && Unshared(old(net.nodes)) ==>
              forall n :: n in net.nodes ==> NodeDone(old(net.Contents()), net.Contents(), n, ids, specs)
  {
    hide Owned, Identified, NodeDone, Untouched, SameEntries, LeftRunning, OthersKept, Unshared, Progress, StrictlySorted, FilesStay;
    ghost var s0 := net.Contents();
    var names := SortedList(net.nodes.Keys);
    EntriesSame(s0);
    FilesStaySame(s0.nodes);
    assert forall n :: n in names <==> n in Elements(names);
    NoProgress(s0, names, ids, specs, extra);
    assert forall i :: 0 <= i < |names| ==> names[i] in s0.nodes;
    for i := 0 to |names|
      invariant Inv(net.Contents()) && Identified(net.Contents()) && SameEntries(s0, net.Contents())
      invariant forall n :: n in s0.nodes <==> n in net.nodes
      invariant Progress(s0, net.Contents(), names, i, ids, specs, extra) && FilesStay(s0.nodes, net.nodes)
    {
      ghost var s := net.Contents();
      NextOne(s0, s, names, i, ids, specs, extra);
      err := UpdateNode(net, names[i], ids, specs, names[i] in extra, envs(i), codes(i), s0);
      if err.Some? { return; }
      KeysSame(s0, net.Contents());
      FilesStayTwice(s0.nodes, s.nodes, net.nodes);
      MoreProgress(s0, s, net.Contents(), names, i, ids, specs, extra);
    }
    AllProgress(s0, net.Contents(), names, ids, specs, extra);
    if !healthy { return Some(Unhealthy); }
    return None;
  }

  /** How far restartNodes got: the first i nodes are done, the others are as they were. */
  ghost predicate Progress(s0: State, r: State, names: seq<string>, i: nat, ids: seq<string>, specs: seq<SubnetSpec>, extra: set<string>)
    requires WellFormed(s0) && WellFormed(r) && i <= |names| && |ids| <= |specs|
    requires forall n :: n in names ==> n in s0.nodes && n in r.nodes
  {
    && (forall n :: n in names[..i] ==> LeftRunning(s0, r, n, ids, specs, n in extra))
    && (forall n :: n in names[i..] ==> r.nodes[n].pid == s0.nodes[n].pid)
    && (Unshared(s0.nodes) ==>
          && (forall n :: n in names[..i] ==> NodeDone(s0, r, n, ids, specs))
          && (forall n :: n in names[i..] ==> Untouched(s0, r, n)))
  }

  lemma NoProgress(s: State, names: seq<string>, ids: seq<string>, specs: seq<SubnetSpec>, extra: set<string>)
    requires WellFormed(s) && |ids| <= |specs| && forall n :: n in names ==> n in s.nodes
    ensures Progress(s, s, names, 0, ids, specs, extra)
  {
    hide NodeDone, Untouched, LeftRunning, Unshared;
    forall n | n in names ensures Untouched(s, s, n) { UntouchedSame(s, n); }
  }

  lemma NextOne(s0: State, r: State, names: seq<string>, i: nat, ids: seq<string>, specs: seq<SubnetSpec>, extra: set<string>)
    requires WellFormed(s0) && WellFormed(r) && i < |names| && |ids| <= |specs|
    requires forall n :: n in names ==> n in s0.nodes && n in r.nodes
    requires Progress(s0, r, names, i, ids, specs, extra)
    ensures r.nodes[names[i]].pid == s0.nodes[names[i]].pid && (Unshared(s0.nodes) ==> Untouched(s0, r, names[i]))
  {
    hide NodeDone, Untouched, LeftRunning, Unshared;
    assert names[i..][0] == names[i] && names[i] in names[i..];
  }

  lemma MoreProgress(s0: State, s: State, r: State, names: seq<string>, i: nat, ids: seq<string>, specs: seq<SubnetSpec>, extra: set<string>)
    requires WellFormed(s0) && WellFormed(s) && WellFormed(r) && i < |names| && |ids| <= |specs| && StrictlySorted(names)
    requires forall n :: n in names ==> n in s0.nodes
    requires forall n :: n in s0.nodes ==> n in s.nodes && n in r.nodes
    requires Progress(s0, s, names, i, ids, specs, extra)
    requires LeftRunning(s0, r, names[i], ids, specs, names[i] in extra)
    requires forall n :: n in s0.nodes && n != names[i] ==> r.nodes[n].pid == s.nodes[n].pid
    requires Unshared(s0.nodes) ==> NodeDone(s0, r, names[i], ids, specs) && OthersKept(s0, s, r, names[i], ids, specs)
    ensures Progress(s0, r, names, i + 1, ids, specs, extra)
  {
    hide NodeDone, Untouched, Unshared, StrictlySorted, NewFor, WellFormed;
    NamesApart(names, i);
    assert forall n :: n in names[..i] ==> n in names;
    assert forall n :: n in names[i + 1..] ==> n in names;
  }

  lemma AllProgress(s0: State, r: State, names: seq<string>, ids: seq<string>, specs: seq<SubnetSpec>, extra: set<string>)
    requires WellFormed(s0) && WellFormed(r) && |ids| <= |specs|
    requires forall n :: n in names ==> n in s0.nodes && n in r.nodes
    requires Progress(s0, r, names, |names|, ids, specs, extra)
    ensures forall n :: n in names ==> LeftRunning(s0, r, n, ids, specs, n in extra)
    ensures Unshared(s0.nodes) ==> forall n :: n in names ==> NodeDone(s0, r, n, ids, specs)
  {
    hide NodeDone, Untouched, LeftRunning, Unshared;
    assert names[..|names|] == names;
  }

  lemma EntriesSame(s: State)
    ensures SameEntries(s, s)
  {
  }

  lemma KeysSame(s: State, r: State)
    requires SameEntries(s, r)
    ensures forall n :: n in s.nodes <==> n in r.nodes
    ensures |r.procs| >= |s.procs|
  {
    assert forall n :: n in s.nodes <==> n in s.nodes.Keys;
    assert forall n :: n in r.nodes <==> n in r.nodes.Keys;
  }

  lemma MarkSame(s: State, r: State, name: string)
    requires SameEntries(s, r) && name in s.nodes
    ensures name in r.nodes && r.nodes[name].paused == s.nodes[name].paused
  {
    assert name in r.nodes.Keys;
  }

  lemma UntouchedSame(s: State, name: string)
    requires WellFormed(s) && name in s.nodes
    ensures Untouched(s, s, name)
  {
  }

  lemma UntouchedFacts(s0: State, s: State, name: string)
    requires WellFormed(s0) && WellFormed(s) && name in s0.nodes && name in s.nodes && Untouched(s0, s, name)
    requires SameEntries(s0, s)
    ensures s.nodes[name] == s0.nodes[name] && FlagsOf(s, name) == FlagsOf(s0, name) && |s.procs| >= |s0.procs|
  {
  }

  lemma WriteListFacts(s0: State, s: State, name: string, list: string)
    requires Inv(s) && Identified(s) && SameEntries(s0, s) && name in s.nodes
    ensures var s1 := WithList(s, name, list);
            && Inv(s1) && Identified(s1) && SameEntries(s0, s1) && s1.nodes == s.nodes && s1.procs == s.procs
            && FlagsOf(s1, name) == FlagsOf(s1, name)[TrackSubnets := Str(list)]
  {
    hide Owned;
  }

  lemma NamesApart(names: seq<string>, i: nat)
    requires StrictlySorted(names) && i < |names|
    ensures names[i] !in names[..i] && names[i] !in names[i + 1..]
    ensures names[..i + 1] == names[..i] + [names[i]] && names[i..] == [names[i]] + names[i + 1..]
  {
    LessTotal(names[i], names[i]);
    forall j | 0 <= j < i ensures names[j] != names[i] { assert Less(names[j], names[i]); }
    forall j | i < j < |names| ensures names[j] != names[i] { assert Less(names[i], names[j]); }
  }

  // ---------- what the result means ----------

  /** A node's flag then tracks, in strictly sorted order, exactly the subnets it tracked
      before and those it newly takes part in, unless the flag was of nothing but commas and
      the node takes part in no new subnet; and a participant that is not paused runs a
      process that was told this list. */
  lemma DoneListMeans(s: State, r: State, name: string, ids: seq<string>, specs: seq<SubnetSpec>)
    requires WellFormed(s) && WellFormed(r) && name in s.nodes && name in r.nodes && |ids| <= |specs|
    requires NodeDone(s, r, name, ids, specs) && CommaFree(Elements(ids)) && "" !in ids
    ensures var before, now := ListIn(FlagsOf(s, name)), ListIn(FlagsOf(r, name));
            var takesPart := exists i :: 0 <= i < |ids| && name in specs[i].participants;
            && ((forall x :: Tracks(now, x)
                             <==> Tracks(before, x) || exists i :: 0 <= i < |ids| && ids[i] == x && name in specs[i].participants)
                <==> !(OnlyCommas(before) && !takesPart))
            && StrictlySorted(Split(now, ','))
            && (takesPart && !s.nodes[name].paused ==> r.nodes[name].pid >= |s.procs| && Told(r.procs[r.nodes[name].pid], now))
  {
    hide Told, OnlyCommas;
    var before, added := ListIn(FlagsOf(s, name)), NewFor(ids, specs, name);
    forall x | x in added ensures ',' !in x && x != "" {
      assert x in ids;
      assert x in Elements(ids);
    }
    TrackedAfterMeans(before, added);
    forall x ensures x in added <==> exists i :: 0 <= i < |ids| && ids[i] == x && name in specs[i].participants { }
    if i :| 0 <= i < |ids| && name in specs[i].participants {
      assert ids[i] in added;
      assert Tracks(TrackedAfter(before, added), ids[i]);
    }
    if added != {} { var x :| x in added; }
  }

  /** Restarting the nodes for the same subnets again leaves every list as it is. */
  lemma SecondRestartKeepsLists(s: State, r: State, q: State, name: string, ids: seq<string>, specs: seq<SubnetSpec>)
    requires WellFormed(s) && WellFormed(r) && WellFormed(q) && |ids| <= |specs|
    requires name in s.nodes && name in r.nodes && name in q.nodes
    requires NodeDone(s, r, name, ids, specs) && NodeDone(r, q, name, ids, specs) && CommaFree(Elements(ids))
    ensures FlagsOf(q, name)[TrackSubnets] == FlagsOf(r, name)[TrackSubnets]
  {
    hide Told;
    var added := NewFor(ids, specs, name);
    forall x | x in added ensures ',' !in x {
      assert x in ids;
      assert x in Elements(ids);
    }
    TrackedAfterIdempotent(ListIn(FlagsOf(s, name)), added);
  }
}
