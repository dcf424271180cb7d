/** The platform chain as the runner meets it, and how nodes become validators of
    the primary network and of subnets (local/blockchain.go). */
module Validators {
  import opened Common
  import opened Network
  import opened LocalNetworks
  import opened TrackedSubnets

  // ---------- the platform chain ----------

  /** The current validators: the end times of the primary ones, and the others by subnet. */
  datatype View = View(primary: map<string, nat>, subnets: map<string, set<string>>)

  /** A node validates a subnet in a view. */
  predicate InSubnet(v: View, subnet: string, id: string) {
    subnet in v.subnets && id in v.subnets[subnet]
  }

  /** Whoever validates a subnet in one view still does in the other. */
  ghost predicate SubnetGrows(v: View, v': View, subnet: string) {
    forall id :: InSubnet(v, subnet, id) ==> InSubnet(v', subnet, id)
  }

  /** The validators of a subnet, none if the chain does not know it. */
  function ValidatorsOf(v: View, subnet: string): (r: set<string>)
    ensures forall id :: id in r <==> InSubnet(v, subnet, id)
  {
    if subnet in v.subnets then v.subnets[subnet] else {}
  }

  /** A transaction that makes a node a validator; no end time is Go's zero time. */
  datatype ValidatorTx =
    | AddPrimary(id: string)
    | AddToSubnet(subnet: string, id: string, end: Option<nat>)

  /** The platform chain as a client meets it. Time passes with every request: the
      request at time k sees view(k), if it is answered at all. */
  class PlatformChain {
    const view: nat -> View
    const answers: nat -> bool
    var time: nat
    var issued: seq<ValidatorTx>

    /** Validators never leave, and no end time is 0. */
    ghost predicate Valid() {
      && (forall i: nat, j: nat, id :: i <= j && id in view(i).primary ==> id in view(j).primary)
      && (forall i: nat, j: nat, s, id :: i <= j && InSubnet(view(i), s, id) ==> InSubnet(view(j), s, id))
      && (forall i: nat, id :: id in view(i).primary ==> view(i).primary[id] > 0)
    }

    constructor (view: nat -> View, answers: nat -> bool)
      ensures this.view == view && this.answers == answers && time == 0 && issued == []
    {
      this.view, this.answers, time, issued := view, answers, 0, [];
    }

    /** GetCurrentValidators. */
    method Validators() returns (v: Option<View>)
      modifies this`time
      ensures time == old(time) + 1
      ensures v.Some? ==> v.value == view(old(time))
    {
      v := if answers(time) then Some(view(time)) else None;
      time := time + 1;
    }

    /** A wallet issues a transaction and waits until it is accepted. */
    method Issue(tx: ValidatorTx) returns (ok: bool)
      modifies this
      ensures time == old(time) + 1
      ensures issued == if ok then old(issued) + [tx] else old(issued)
    {
      ok := answers(time);
      if ok { issued := issued + [tx]; }
      time := time + 1;
    }
  }

  // ---------- validators ----------

  /** Every node validates the primary network at a time. */
  ghost predicate AllPrimary(nodes: map<string, Node>, v: View) {
    forall n :: n in nodes ==> nodes[n].id in v.primary
  }

  /** A transaction makes a node that is not one yet a validator of the primary network. */
  ghost predicate Missing(nodes: map<string, Node>, v: View, tx: ValidatorTx) {
    tx.AddPrimary? && tx.id !in v.primary && exists n :: n in nodes && nodes[n].id == tx.id
  }

  /** addPrimaryValidators: the nodes, in any order. */
  method AddPrimaryValidators(net: LocalNetwork, chain: PlatformChain) returns (err: Option<Error>)
    modifies chain
    ensures chain.time >= old(chain.time)
    ensures |chain.issued| >= |old(chain.issued)| && chain.issued[..|old(chain.issued)|] == old(chain.issued)
    ensures forall k :: |old(chain.issued)| <= k < |chain.issued| ==>
              Missing(net.nodes, chain.view(old(chain.time)), chain.issued[k])
    ensures err.None? ==> forall n :: n in net.nodes ==>
              net.nodes[n].id in chain.view(old(chain.time)).primary || AddPrimary(net.nodes[n].id) in chain.issued
    ensures err in {None, Some(ChainUnavailable)}
  {
    var current := chain.Validators();
    if current.None? { return Some(ChainUnavailable); }
    var rest := net.nodes.Keys;
    while rest != {}
      invariant rest <= net.nodes.Keys && chain.time >= old(chain.time)
      invariant |chain.issued| >= |old(chain.issued)| && chain.issued[..|old(chain.issued)|] == old(chain.issued)
      invariant forall k :: |old(chain.issued)| <= k < |chain.issued| ==>
                  Missing(net.nodes, current.value, chain.issued[k])
      invariant forall n :: n in net.nodes && n !in rest ==>
                  net.nodes[n].id in current.value.primary || AddPrimary(net.nodes[n].id) in chain.issued
      decreases rest
    {
      var n :| n in rest;
      rest := rest - {n};
      var id := net.nodes[n].id;
      if id !in current.value.primary {
        var ok := chain.Issue(AddPrimary(id));
        if !ok { return Some(ChainUnavailable); }
      }
    }
    return None;
  }

  /** waitPrimaryValidators; the context ends after patience rounds. */
  method WaitPrimaryValidators(net: LocalNetwork, chain: PlatformChain, patience: nat) returns (err: Option<Error>)
    requires chain.Valid()
    modifies chain`time
    ensures chain.time >= old(chain.time)
    ensures err.None? ==> AllPrimary(net.nodes, chain.view(chain.time))
    ensures err == Some(ContextDone) && patience > 0 ==>
              chain.time > 0 && !AllPrimary(net.nodes, chain.view(chain.time - 1))
    ensures err in {None, Some(ChainUnavailable), Some(ContextDone)}
  {
    for round := 0 to patience
      invariant chain.time >= old(chain.time)
      invariant round > 0 ==> chain.time > 0 && !AllPrimary(net.nodes, chain.view(chain.time - 1))
    {
      var v := chain.Validators();
      if v.None? { return Some(ChainUnavailable); }
      var ready := true;
      var rest := net.nodes.Keys;
      while rest != {}
        invariant rest <= net.nodes.Keys
        invariant ready <==> forall n :: n in net.nodes && n !in rest ==> net.nodes[n].id in v.value.primary
        decreases rest
      {
        var n :| n in rest;
        rest := rest - {n};
        if net.nodes[n].id !in v.value.primary { ready := false; }
      }
      if ready { return None; }
    }
    return Some(ContextDone);
  }

  /** The participants of the created subnets are nodes of the network. */
  ghost predicate Present(nodes: map<string, Node>, specs: seq<SubnetSpec>) {
    forall i, p :: 0 <= i < |specs| && p in specs[i].participants ==> p in nodes
  }

  /** Every participant validates the subnet in a view. */
  ghost predicate Validating(nodes: map<string, Node>, v: View, subnet: string, names: seq<string>) {
    forall p :: p in names ==> p in nodes && InSubnet(v, subnet, nodes[p].id)
  }

  /** The end of a node's primary validation; Go's zero time if it does not validate. */
  function EndIn(v: View, id: string): Option<nat> {
    if id in v.primary then Some(v.primary[id]) else None
  }

  /** A subnet validation ends when the primary one does; without one, at the zero time. */
  predicate EndsWithPrimary(v: View, tx: ValidatorTx) {
    tx.AddToSubnet? && if tx.id in v.primary then tx.end == Some(v.primary[tx.id]) else tx.end.None?
  }

  /** A transaction makes a participant, one that does not validate its subnet yet, a
      validator of it for as long as some view says that it validates the primary network. */
  ghost predicate Wanted(nodes: map<string, Node>, ids: seq<string>, specs: seq<SubnetSpec>, view: nat -> View, tx: ValidatorTx)
    requires |ids| <= |specs|
  {
    && tx.AddToSubnet?
    && (exists i, p :: 0 <= i < |ids| && p in specs[i].participants && p in nodes
                       && tx.subnet == ids[i] && tx.id == nodes[p].id)
    && (exists k: nat :: EndsWithPrimary(view(k), tx))
    && (exists k: nat :: !InSubnet(view(k), tx.subnet, tx.id))
  }

  /** The end time is not the zero time. */
  predicate EndsInTime(tx: ValidatorTx) {
    tx.AddToSubnet? ==> tx.end.Some? && tx.end.value > 0
  }

  /** What addSubnetValidators may add to the issued transactions; if all nodes were
      ready, none of them has the zero end time. */
  ghost predicate Proper(nodes: map<string, Node>, ids: seq<string>, specs: seq<SubnetSpec>, view: nat -> View,
                         ready: bool, before: seq<ValidatorTx>, after: seq<ValidatorTx>)
    requires |ids| <= |specs|
  {
    && |after| >= |before| && after[..|before|] == before
    && (forall k :: |before| <= k < |after| ==> Wanted(nodes, ids, specs, view, after[k]) && (ready ==> EndsInTime(after[k])))
  }

  predicate WasAsked(issued: seq<ValidatorTx>, subnet: string, id: string) {
    exists k :: 0 <= k < |issued| && issued[k].AddToSubnet? && issued[k].subnet == subnet && issued[k].id == id
  }

  /** Every participant validates the subnet or was asked to. */
  ghost predicate Asked(nodes: map<string, Node>, v: View, issued: seq<ValidatorTx>, subnet: string, names: seq<string>) {
    forall p :: p in names ==>
      p in nodes && (InSubnet(v, subnet, nodes[p].id) || WasAsked(issued, subnet, nodes[p].id))
  }

  /** addSubnetValidators. If the participants are in the network and all nodes are
      primary validators by now, no participant is missing and no transaction has the
      zero end time. */
  method AddSubnetValidators(net: LocalNetwork, chain: PlatformChain, ids: seq<string>, specs: seq<SubnetSpec>)
    returns (err: Option<Error>)
    requires chain.Valid() && |ids| <= |specs|
    modifies chain
    ensures chain.time >= old(chain.time)
    ensures Proper(net.nodes, ids, specs, chain.view, AllPrimary(net.nodes, chain.view(old(chain.time))),
                   old(chain.issued), chain.issued)
    ensures err in {None, Some(ChainUnavailable), Some(ParticipantNotInNetwork)}
    ensures Present(net.nodes, specs) ==> err != Some(ParticipantNotInNetwork)
    ensures err.None? ==> forall i :: 0 <= i < |ids| ==>
              Asked(net.nodes, chain.view(chain.time), chain.issued, ids[i], specs[i].participants)
  {
    hide Wanted, EndsInTime, WasAsked, Present;
    ghost var ready := AllPrimary(net.nodes, chain.view(old(chain.time)));
    for i := 0 to |ids|
      invariant chain.time >= old(chain.time)
      invariant Proper(net.nodes, ids, specs, chain.view, ready, old(chain.issued), chain.issued)
      invariant forall k :: 0 <= k < i ==>
                  Asked(net.nodes, chain.view(chain.time), chain.issued, ids[k], specs[k].participants)
    {
      ghost var time, issued := chain.time, chain.issued;
      err := AddValidatorsOf(net, chain, ids, specs, i, ready);
      if err.Some? { return; }
      forall k | 0 <= k < i ensures Asked(net.nodes, chain.view(chain.time), chain.issued, ids[k], specs[k].participants) {
        AskedLater(net.nodes, chain.view(time), chain.view(chain.time), issued, chain.issued, ids[k], specs[k].participants);
      }
    }
    return None;
  }

  lemma AskedLater(nodes: map<string, Node>, v: View, v': View, issued: seq<ValidatorTx>, issued': seq<ValidatorTx>,
                   subnet: string, names: seq<string>)
    requires Asked(nodes, v, issued, subnet, names) && SubnetGrows(v, v', subnet)
    requires |issued'| >= |issued| && issued'[..|issued|] == issued
    ensures Asked(nodes, v', issued', subnet, names)
  {
    forall id | WasAsked(issued, subnet, id) ensures WasAsked(issued', subnet, id) {
      var k :| 0 <= k < |issued| && issued[k].AddToSubnet? && issued[k].subnet == subnet && issued[k].id == id;
      assert issued'[k] == issued'[..|issued|][k];
    }
  }

  /** One subnet of addSubnetValidators. */
  method AddValidatorsOf(net: LocalNetwork, chain: PlatformChain, ids: seq<string>, specs: seq<SubnetSpec>, i: nat,
                         ghost ready: bool)
    returns (err: Option<Error>)
    requires chain.Valid() && i < |ids| <= |specs|
    requires ready ==> AllPrimary(net.nodes, chain.view(chain.time))
    modifies chain
    ensures chain.time >= old(chain.time)
    ensures Proper(net.nodes, ids, specs, chain.view, ready, old(chain.issued), chain.issued)
    ensures err in {None, Some(ChainUnavailable), Some(ParticipantNotInNetwork)}
    ensures Present(net.nodes, specs) ==> err != Some(ParticipantNotInNetwork)
    ensures err.None? ==> Asked(net.nodes, chain.view(chain.time), chain.issued, ids[i], specs[i].participants)
  {
    hide Wanted, EndsInTime, WasAsked, ValidatorsOf, Asked;
    var primary := chain.Validators();
    if primary.None? { return Some(ChainUnavailable); }
    var current := chain.Validators();
    if current.None? { return Some(ChainUnavailable); }
    var validators := ValidatorsOf(current.value, ids[i]);
    var names := specs[i].participants;
    NoneAsked(net.nodes, current.value, chain.issued, ids[i]);
    for j := 0 to |names|
      invariant chain.time >= old(chain.time) + 2
      invariant Proper(net.nodes, ids, specs, chain.view, ready, old(chain.issued), chain.issued)
      invariant Asked(net.nodes, current.value, chain.issued, ids[i], names[..j])
    {
      var name := names[j];
      if name !in net.nodes { return Some(ParticipantNotInNetwork); }
      var id := net.nodes[name].id;
      ghost var before := chain.issued;
      if id !in validators {
        var tx := AddToSubnet(ids[i], id, EndIn(primary.value, id));
        TxIsProper(net.nodes, ids, specs, i, name, chain.view, old(chain.time), old(chain.time) + 1, tx, ready);
        var ok := chain.Issue(tx);
        if !ok { return Some(ChainUnavailable); }
      }
      assert names[..j + 1] == names[..j] + [name];
      OneMoreAsked(net.nodes, current.value, before, chain.issued, ids[i], names[..j], name);
    }
    assert names[..|names|] == names;
    AskedLater(net.nodes, current.value, chain.view(chain.time), chain.issued, chain.issued, ids[i], names);
    return None;
  }

  lemma NoneAsked(nodes: map<string, Node>, v: View, issued: seq<ValidatorTx>, subnet: string)
    ensures Asked(nodes, v, issued, subnet, [])
  {
  }

  lemma TxIsProper(nodes: map<string, Node>, ids: seq<string>, specs: seq<SubnetSpec>, i: nat, name: string,
                   view: nat -> View, k: nat, l: nat, tx: ValidatorTx, ready: bool)
    requires i < |ids| <= |specs| && name in specs[i].participants && name in nodes
    requires tx.AddToSubnet? && tx.subnet == ids[i] && tx.id == nodes[name].id
    requires !InSubnet(view(l), tx.subnet, tx.id)
    requires tx.end == EndIn(view(k), tx.id) && (ready ==> tx.id in view(k).primary && view(k).primary[tx.id] > 0)
    ensures Wanted(nodes, ids, specs, view, tx) && (ready ==> EndsInTime(tx))
  {
  }

  lemma OneMoreAsked(nodes: map<string, Node>, v: View, before: seq<ValidatorTx>, issued: seq<ValidatorTx>,
                     subnet: string, names: seq<string>, name: string)
    requires Asked(nodes, v, before, subnet, names) && name in nodes
    requires (InSubnet(v, subnet, nodes[name].id) && issued == before)
             || (issued != [] && issued[..|issued| - 1] == before
                 && (var tx := issued[|issued| - 1]; tx.AddToSubnet? && tx.subnet == subnet && tx.id == nodes[name].id))
    ensures Asked(nodes, v, issued, subnet, names + [name])
  {
    AskedLater(nodes, v, v, before, issued, subnet, names);
  }

  /** waitSubnetValidators. A nil result means that every participant of every subnet
      validates it, now and from now on. */
  method WaitSubnetValidators(net: LocalNetwork, chain: PlatformChain, ids: seq<string>, specs: seq<SubnetSpec>, patience: nat)
    returns (err: Option<Error>)
    requires chain.Valid() && |ids| <= |specs|
    modifies chain`time
    ensures chain.time >= old(chain.time)
    ensures err.None? ==> forall i, t: nat :: 0 <= i < |ids| && chain.time <= t ==>
              Validating(net.nodes, chain.view(t), ids[i], specs[i].participants)
    ensures err in {None, Some(ChainUnavailable), Some(ContextDone), Some(ParticipantNotInNetwork)}
    ensures Present(net.nodes, specs) ==> err != Some(ParticipantNotInNetwork)
  {
    hide Validating, Present;
    for round := 0 to patience
      invariant chain.time >= old(chain.time)
    {
      var ready := true;
      var i := 0;
      while i < |ids| && ready
        invariant 0 <= i <= |ids| && chain.time >= old(chain.time)
        invariant ready ==> forall k :: 0 <= k < i ==> Validating(net.nodes, chain.view(chain.time), ids[k], specs[k].participants)
      {
        ghost var time := chain.time;
        err, ready := ParticipantsReady(net, chain, ids[i], specs[i].participants);
        if err == Some(ParticipantNotInNetwork) { PresentAt(net.nodes, specs, i); }
        if err.Some? { return; }
        forall k | 0 <= k < i && Validating(net.nodes, chain.view(time), ids[k], specs[k].participants)
          ensures Validating(net.nodes, chain.view(chain.time), ids[k], specs[k].participants)
        {
          StillValidating(net.nodes, chain.view(time), chain.view(chain.time), ids[k], specs[k].participants);
        }
        i := i + 1;
      }
      if ready {
        forall k, t: nat | 0 <= k < |ids| && chain.time <= t
          ensures Validating(net.nodes, chain.view(t), ids[k], specs[k].participants)
        {
          StillValidating(net.nodes, chain.view(chain.time), chain.view(t), ids[k], specs[k].participants);
        }
        return None;
      }
    }
    return Some(ContextDone);
  }

  lemma PresentAt(nodes: map<string, Node>, specs: seq<SubnetSpec>, i: nat)
    requires i < |specs| && exists p :: p in specs[i].participants && p !in nodes
    ensures !Present(nodes, specs)
  {
  }

  lemma StillValidating(nodes: map<string, Node>, v: View, v': View, subnet: string, names: seq<string>)
    requires Validating(nodes, v, subnet, names) && SubnetGrows(v, v', subnet)
    ensures Validating(nodes, v', subnet, names)
  {
  }

  /** One subnet of waitSubnetValidators. */
  method ParticipantsReady(net: LocalNetwork, chain: PlatformChain, subnet: string, names: seq<string>)
    returns (err: Option<Error>, ready: bool)
    requires chain.Valid()
    modifies chain`time
    ensures chain.time >= old(chain.time)
    ensures err in {None, Some(ChainUnavailable), Some(ParticipantNotInNetwork)}
    ensures err == Some(ParticipantNotInNetwork) ==> exists p :: p in names && p !in net.nodes
    ensures err.None? ==> (ready <==> Validating(net.nodes, chain.view(old(chain.time)), subnet, names))
    ensures err.None? && ready ==> Validating(net.nodes, chain.view(chain.time), subnet, names)
  {
    ready := true;
    var current := chain.Validators();
    if current.None? { return Some(ChainUnavailable), ready; }
    var validators := ValidatorsOf(current.value, subnet);
    for j := 0 to |names|
      invariant forall k :: 0 <= k < j ==> names[k] in net.nodes
      invariant ready <==> forall k :: 0 <= k < j ==> net.nodes[names[k]].id in validators
    {
      if names[j] !in net.nodes { return Some(ParticipantNotInNetwork), ready; }
      if net.nodes[names[j]].id !in validators { ready := false; }
    }
    return None, ready;
  }
}
