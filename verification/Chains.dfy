/** Which subnet a requested blockchain goes to, and which nodes take part in it
    (local/blockchain.go). */
module Chains {
  import opened Common
  import opened Strings
  import opened TrackedSubnets

  /** network.BlockchainSpec. */
  datatype ChainSpec = ChainSpec(
    vmName: string, subnetId: Option<string>, subnetSpec: Option<SubnetSpec>,
    chainConfig: Option<string>, perNodeConfig: map<string, string>, upgrade: Option<string>)

  /** The subnet to create for a blockchain that names none. */
  function SpecOf(c: ChainSpec): SubnetSpec {
    if c.subnetSpec.Some? then c.subnetSpec.value else SubnetSpec([], None)
  }

  /** How many of the first k blockchains name no subnet. */
  function MissingBefore(chains: seq<ChainSpec>, k: nat): nat
    requires k <= |chains|
  {
    if k == 0 then 0 else MissingBefore(chains, k - 1) + (if chains[k - 1].subnetId.None? then 1 else 0)
  }

  lemma {:induction false} MissingGrows(chains: seq<ChainSpec>, j: nat, k: nat)
    requires j < k <= |chains|
    ensures MissingBefore(chains, j) + (if chains[j].subnetId.None? then 1 else 0) <= MissingBefore(chains, k)
  {
    if k > j + 1 { MissingGrows(chains, j, k - 1); }
  }

  /** The blockchains before the k-th that name no subnet. */
  function Needing(chains: seq<ChainSpec>, k: nat): set<nat>
    requires k <= |chains|
  {
    set i: nat | i < k && chains[i].subnetId.None? :: i
  }

  lemma {:induction false} MissingCounts(chains: seq<ChainSpec>, k: nat)
    requires k <= |chains|
    ensures MissingBefore(chains, k) == |Needing(chains, k)|
  {
    if k > 0 {
      MissingCounts(chains, k - 1);
      assert Needing(chains, k) == Needing(chains, k - 1) + (if chains[k - 1].subnetId.None? then {k - 1} else {});
    }
  }

  /** The specs are collected in the order of the blockchains that need them. */
  method CollectSpecs(chains: seq<ChainSpec>) returns (specs: seq<SubnetSpec>)
    ensures |specs| == MissingBefore(chains, |chains|)
    ensures forall k :: 0 <= k < |chains| && chains[k].subnetId.None? ==>
              MissingBefore(chains, k) < |specs| && specs[MissingBefore(chains, k)] == SpecOf(chains[k])
  {
    specs := [];
    for i := 0 to |chains|
      invariant |specs| == MissingBefore(chains, i)
      invariant forall k :: 0 <= k < i && chains[k].subnetId.None? ==>
                  MissingBefore(chains, k) < |specs| && specs[MissingBefore(chains, k)] == SpecOf(chains[k])
    {
      if chains[i].subnetId.None? {
        if chains[i].subnetSpec.None? {
          specs := specs + [SubnetSpec([], None)];
        } else {
          specs := specs + [chains[i].subnetSpec.value];
        }
      }
    }
  }

  /** Who takes part in a subnet: whoever its spec names, or, if it names no one, all nodes
      that were there before. */
  predicate TakesPart(spec: SubnetSpec, before: set<string>, name: string) {
    if spec.participants == [] then name in before else name in spec.participants
  }

  /** Who takes part in the new subnet of a blockchain, which may come without a spec. */
  predicate TakesPartIn(c: ChainSpec, before: set<string>, name: string) {
    if c.subnetSpec.Some? && c.subnetSpec.value.participants != [] then name in c.subnetSpec.value.participants
    else name in before
  }

  lemma FillInMeans(spec: SubnetSpec, all: seq<string>, before: set<string>)
    requires Elements(all) == before
    ensures FillIn(spec, all).config == spec.config
    ensures forall name :: name in FillIn(spec, all).participants <==> TakesPart(spec, before, name)
  {
    assert forall name :: name in all <==> name in Elements(all);
  }

  lemma SpecOfMeans(c: ChainSpec, all: seq<string>, before: set<string>)
    requires Elements(all) == before
    ensures forall name :: name in FillIn(SpecOf(c), all).participants <==> TakesPartIn(c, before, name)
    ensures FillIn(SpecOf(c), all).config == if c.subnetSpec.Some? then c.subnetSpec.value.config else None
  {
    FillInMeans(SpecOf(c), all, before);
  }

  /** Where no participants are given, all nodes take part. */
  function FillIn(spec: SubnetSpec, all: seq<string>): SubnetSpec {
    if spec.participants == [] then spec.(participants := all) else spec
  }

  function Filled(specs: seq<SubnetSpec>, all: seq<string>): seq<SubnetSpec> {
    seq(|specs|, i requires 0 <= i < |specs| => FillIn(specs[i], all))
  }

  method FillParticipants(specs: seq<SubnetSpec>, all: seq<string>) returns (filled: seq<SubnetSpec>)
    ensures filled == Filled(specs, all) && |filled| == |specs|
    ensures forall i :: 0 <= i < |specs| ==>
              filled[i].config == specs[i].config
              && filled[i].participants == if specs[i].participants == [] then all else specs[i].participants
  {
    filled := specs;
    for i := 0 to |specs|
      invariant |filled| == |specs|
      invariant forall k :: 0 <= k < i ==> filled[k] == FillIn(specs[k], all)
      invariant forall k :: i <= k < |specs| ==> filled[k] == specs[k]
    {
      if |filled[i].participants| == 0 {
        filled := filled[i := filled[i].(participants := all)];
      }
    }
  }

  /** The created subnets are handed out in order. The index into them never runs out,
      and a blockchain that names its subnet keeps it. */
  method AssignSubnets(chains: seq<ChainSpec>, ids: seq<string>) returns (placed: seq<ChainSpec>)
    requires |ids| == MissingBefore(chains, |chains|)
    ensures |placed| == |chains|
    ensures forall k :: 0 <= k < |chains| && chains[k].subnetId.Some? ==> placed[k] == chains[k]
    ensures forall k :: 0 <= k < |chains| && chains[k].subnetId.None? ==>
              MissingBefore(chains, k) < |ids| && placed[k] == chains[k].(subnetId := Some(ids[MissingBefore(chains, k)]))
  {
    placed := chains;
    var j := 0;
    for i := 0 to |chains|
      invariant j == MissingBefore(chains, i) && |placed| == |chains|
      invariant forall k :: i <= k < |chains| ==> placed[k] == chains[k]
      invariant forall k :: 0 <= k < i && chains[k].subnetId.Some? ==> placed[k] == chains[k]
      invariant forall k :: 0 <= k < i && chains[k].subnetId.None? ==>
                  MissingBefore(chains, k) < |ids| && placed[k] == chains[k].(subnetId := Some(ids[MissingBefore(chains, k)]))
    {
      if placed[i].subnetId.None? {
        MissingGrows(chains, i, |chains|);
        placed := placed[i := placed[i].(subnetId := Some(ids[j]))];
        j := j + 1;
      }
    }
  }

  ghost predicate AllDistinct(s: seq<string>) {
    forall i, j :: 0 <= i < j < |s| ==> s[i] != s[j]
  }

  /** The participants of a newly created subnet; none if the subnet is not new. */
  method NewParticipants(subnet: string, ids: seq<string>, specs: seq<SubnetSpec>) returns (names: seq<string>)
    requires |ids| <= |specs|
    ensures names == [] || exists j :: 0 <= j < |ids| && ids[j] == subnet && names == specs[j].participants
    ensures AllDistinct(ids) ==> forall j :: 0 <= j < |ids| && ids[j] == subnet ==> names == specs[j].participants
  {
    names := [];
    for j := 0 to |ids|
      invariant names == [] || exists k :: 0 <= k < j && ids[k] == subnet && names == specs[k].participants
      invariant AllDistinct(ids) ==> forall k :: 0 <= k < j && ids[k] == subnet ==> names == specs[k].participants
    {
      if subnet == ids[j] {
        names := specs[j].participants;
      }
    }
  }

  /** With distinct subnet IDs, the participants found for a blockchain whose subnet was
      just created are those of its own spec, or all nodes if it named none. */
  method ParticipantsOfNewSubnet(chains: seq<ChainSpec>, all: seq<string>, ids: seq<string>, k: nat)
    returns (names: seq<string>)
    requires |ids| == MissingBefore(chains, |chains|) && AllDistinct(ids)
    requires k < |chains| && chains[k].subnetId.None?
    ensures names == if chains[k].subnetSpec.Some? && chains[k].subnetSpec.value.participants != []
                     then chains[k].subnetSpec.value.participants else all
  {
    var specs := CollectSpecs(chains);
    specs := FillParticipants(specs, all);
    var placed := AssignSubnets(chains, ids);
    names := NewParticipants(placed[k].subnetId.value, ids, specs);
  }

  // ---------- the nodes behind the validators ----------

  ghost predicate IdsDistinct(nodes: map<string, string>) {
    forall m, n :: m in nodes && n in nodes && nodes[m] == nodes[n] ==> m == n
  }

  /** The nodes with a given ID. */
  function Owners(nodes: map<string, string>, id: string): set<string> {
    set n | n in nodes && nodes[n] == id
  }

  /** How many names the lookup comes up with: the nodes with its ID, for each validator. */
  function Matches(nodes: map<string, string>, validators: seq<string>): nat {
    if validators == [] then 0
    else Matches(nodes, validators[..|validators| - 1]) + |Owners(nodes, validators[|validators| - 1])|
  }

  /** How many validators are not in the network. */
  function Absent(nodes: map<string, string>, validators: seq<string>): nat {
    if validators == [] then 0
    else Absent(nodes, validators[..|validators| - 1])
         + (if Owners(nodes, validators[|validators| - 1]) == {} then 1 else 0)
  }

  /** How many more nodes than one the validators in the network have, together. */
  function Surplus(nodes: map<string, string>, validators: seq<string>): nat {
    if validators == [] then 0
    else
      var owners := Owners(nodes, validators[|validators| - 1]);
      Surplus(nodes, validators[..|validators| - 1]) + (if owners == {} then 0 else |owners| - 1)
  }

  /** The length check passes exactly when what shared IDs add makes up for what is absent. */
  lemma {:induction false} CheckPassesIff(nodes: map<string, string>, validators: seq<string>)
    ensures Matches(nodes, validators) == |validators| <==> Surplus(nodes, validators) == Absent(nodes, validators)
    ensures Matches(nodes, validators) + Absent(nodes, validators) == |validators| + Surplus(nodes, validators)
    decreases |validators|
  {
    if validators != [] { CheckPassesIff(nodes, validators[..|validators| - 1]); }
  }

  /** None is absent exactly when every validator is the ID of a node. */
  lemma {:induction false} NoneAbsentIff(nodes: map<string, string>, validators: seq<string>)
    ensures Absent(nodes, validators) == 0 <==> forall i :: 0 <= i < |validators| ==> validators[i] in nodes.Values
    decreases |validators|
  {
    if validators != [] {
      var m := |validators| - 1;
      NoneAbsentIff(nodes, validators[..m]);
      assert validators == validators[..m] + [validators[m]];
      OwnedIff(nodes, validators[m]);
    }
  }

  lemma OwnedIff(nodes: map<string, string>, id: string)
    ensures Owners(nodes, id) != {} <==> id in nodes.Values
  {
    if id in nodes.Values {
      var n :| n in nodes && nodes[n] == id;
      assert n in Owners(nodes, id);
    }
  }

  /** With distinct IDs there is no surplus, so the check is exact. */
  lemma {:induction false} DistinctHasNoSurplus(nodes: map<string, string>, validators: seq<string>)
    requires IdsDistinct(nodes)
    ensures Surplus(nodes, validators) == 0
    decreases |validators|
  {
    if validators != [] {
      DistinctHasNoSurplus(nodes, validators[..|validators| - 1]);
      AtMostOne(nodes, validators[|validators| - 1]);
    }
  }

  lemma AtMostOne(nodes: map<string, string>, id: string)
    requires IdsDistinct(nodes)
    ensures |Owners(nodes, id)| <= 1
  {
    var owners := Owners(nodes, id);
    if n :| n in owners {
      assert owners == {n};
    }
  }

  lemma {:induction false} DistinctCount(s: seq<string>)
    requires AllDistinct(s)
    ensures |Elements(s)| == |s|
  {
    if s != [] {
      var m := |s| - 1;
      DistinctCount(s[..m]);
      assert s == s[..m] + [s[m]];
      assert s[m] !in s[..m];
      assert Elements(s) == Elements(s[..m]) + {s[m]};
    }
  }

  /** The nodes with a given ID, in the order they are met. */
  method NamesWithId(nodes: map<string, string>, id: string) returns (names: seq<string>)
    ensures forall n :: n in names <==> n in nodes && nodes[n] == id
    ensures AllDistinct(names) && |names| == |Owners(nodes, id)|
  {
    names := [];
    var rest := nodes.Keys;
    while rest != {}
      invariant rest <= nodes.Keys
      invariant forall n :: n in names <==> n in nodes && n !in rest && nodes[n] == id
      invariant AllDistinct(names)
      decreases rest
    {
      var n :| n in rest;
      if id == nodes[n] {
        names := names + [n];
      }
      rest := rest - {n};
    }
    DistinctCount(names);
    assert Elements(names) == Owners(nodes, id);
  }

  /** getSubnetValidatorsNodenames. nodes gives the ID of each node. For all inputs the
      length check passes exactly when there are as many matches as validators, and the
      names are then exactly those of the nodes behind the validators. With distinct IDs it
      passes exactly when every validator is a node, and the i-th name is the i-th validator's. */
  method ValidatorNames(nodes: map<string, string>, validators: seq<string>) returns (r: Result<seq<string>, Error>)
    ensures r.Ok? <==> Matches(nodes, validators) == |validators|
    ensures r.Ok? ==> forall n :: n in r.value <==> n in nodes && nodes[n] in validators
    ensures IdsDistinct(nodes) ==> (r.Ok? <==> forall i :: 0 <= i < |validators| ==> validators[i] in nodes.Values)
    ensures IdsDistinct(nodes) && r.Ok? ==>
              |r.value| == |validators|
              && forall i :: 0 <= i < |validators| ==> r.value[i] in nodes && nodes[r.value[i]] == validators[i]
    ensures IdsDistinct(nodes) && AllDistinct(validators) && r.Ok? ==> AllDistinct(r.value)
    ensures r.Err? ==> r.error == ValidatorNotInNetwork
  {
    hide IdsDistinct, Matches;
    var names := CollectNames(nodes, validators);
    CheckPassesIff(nodes, validators);
    NoneAbsentIff(nodes, validators);
    if IdsDistinct(nodes) { DistinctHasNoSurplus(nodes, validators); }
    if |names| != |validators| {
      return Err(ValidatorNotInNetwork);
    }
    r := Ok(names);
  }

  /** The names found for some validators; with distinct IDs at most one for each, in order. */
  ghost predicate Found(nodes: map<string, string>, validators: seq<string>, names: seq<string>) {
    && |names| == Matches(nodes, validators)
    && (forall n :: n in names <==> n in nodes && nodes[n] in validators)
    && (IdsDistinct(nodes) ==> |names| <= |validators|)
    && (IdsDistinct(nodes) && |names| == |validators| ==>
          forall i :: 0 <= i < |validators| ==> names[i] in nodes && nodes[names[i]] == validators[i])
  }

  lemma FoundOneMore(nodes: map<string, string>, validators: seq<string>, names: seq<string>, id: string, found: seq<string>)
    requires Found(nodes, validators, names)
    requires (forall n :: n in found <==> n in nodes && nodes[n] == id) && |found| == |Owners(nodes, id)|
    ensures Found(nodes, validators + [id], names + found)
  {
    hide IdsDistinct, Owners;
    assert (validators + [id])[..|validators|] == validators;
    if IdsDistinct(nodes) { AtMostOne(nodes, id); }
    assert found != [] ==> found[0] in found;
    forall n ensures n in names + found <==> n in nodes && nodes[n] in validators + [id] { }
  }

  /** The loops of the lookup. */
  method CollectNames(nodes: map<string, string>, validators: seq<string>) returns (names: seq<string>)
    ensures Found(nodes, validators, names)
  {
    names := [];
    assert Found(nodes, [], []);
    hide Found, AllDistinct;
    for i := 0 to |validators|
      invariant Found(nodes, validators[..i], names)
    {
      var found := NamesWithId(nodes, validators[i]);
      FoundOneMore(nodes, validators[..i], names, validators[i], found);
      assert validators[..i + 1] == validators[..i] + [validators[i]];
      names := names + found;
    }
    assert validators[..|validators|] == validators;
  }

  /** Two nodes with one ID make up for a validator that is not in the network: the lookup
      succeeds, with neither of its names that of the missing one. */
  method SharedIdFoolsTheCheck() returns (nodes: map<string, string>, r: Result<seq<string>, Error>)
    ensures nodes == map["a" := "X", "b" := "X"] && "Y" !in nodes.Values
    ensures r.Ok? && Elements(r.value) == {"a", "b"}
  {
    nodes := map["a" := "X", "b" := "X"];
    assert nodes["a"] == "X" && nodes["b"] == "X";
    assert Owners(nodes, "X") == {"a", "b"} && Owners(nodes, "Y") == {};
    assert ["X", "Y"][..1] == ["X"] && ["X"][..0] == [];
    assert Matches(nodes, ["X"]) == 2 && Matches(nodes, ["X", "Y"]) == 2;
    r := ValidatorNames(nodes, ["X", "Y"]);
    assert "a" in r.value && "b" in r.value;
  }
}
