/** The ports of the default configuration (NewDefaultConfigNNodes in
    local/network.go): five nodes come with fixed ports, further ones count up. */
module DefaultPorts {
  import opened Common
  import opened Flags

  const FIRST_PORT := 9650

  /** local/default/node1/flags.json to node5/flags.json. */
  const DEFAULT_NODES: seq<FlagMap> := [
    map[HttpPort := Float(9650.0), StakingPort := Float(9651.0), Other("api-keystore-enabled") := Bool(true)],
    map[HttpPort := Float(9652.0), StakingPort := Float(9653.0)],
    map[HttpPort := Float(9654.0), StakingPort := Float(9655.0)],
    map[HttpPort := Float(9656.0), StakingPort := Float(9657.0)],
    map[HttpPort := Float(9658.0), StakingPort := Float(9659.0)]]

  /** The i-th node is given the ports FIRST_PORT + 2i and the one after it. */
  ghost predicate HasPorts(flags: FlagMap, i: nat) {
    && ConfiguredPort(flags, map[], HttpPort) == Ok(Some(ToPort(FIRST_PORT + 2 * i)))
    && ConfiguredPort(flags, map[], StakingPort) == Ok(Some(ToPort(FIRST_PORT + 2 * i + 1)))
  }

  lemma DefaultsHavePorts(i: nat)
    requires i < 5
    ensures HasPorts(DEFAULT_NODES[i], i)
  {
    assert DEFAULT_NODES[i][HttpPort] == Float((FIRST_PORT + 2 * i) as real);
    assert DEFAULT_NODES[i][StakingPort] == Float((FIRST_PORT + 2 * i + 1) as real);
  }

  /** For every number of nodes there are that many configurations, and each names
      its two ports in a way that getPort reads as above. */
  method NewDefaultConfigNNodes(numNodes: nat) returns (configs: seq<FlagMap>)
    requires numNodes < 0x1_0000_0000
    ensures |configs| == numNodes
    ensures forall i :: 0 <= i < numNodes ==> HasPorts(configs[i], i)
  {
    hide HasPorts;
    configs := DEFAULT_NODES;
    forall i | 0 <= i < 5 ensures HasPorts(configs[i], i) { DefaultsHavePorts(i); }
    if numNodes > |configs| {
      var toAdd := numNodes - |configs|;
      var reference := configs[|configs| - 1];
      var refApi, refStaking := Truncate(reference[HttpPort].x), Truncate(reference[StakingPort].x);
      for i := 0 to toAdd
        invariant |configs| == 5 + i
        invariant forall k :: 0 <= k < |configs| ==> HasPorts(configs[k], k)
      {
        var flags := map[HttpPort := Int(refApi + (i + 1) * 2), StakingPort := Int(refStaking + (i + 1) * 2)];
        AddedHasPorts(flags, i);
        configs := configs + [flags];
      }
    }
    if numNodes < |configs| {
      configs := configs[..numNodes];
    }
  }

  lemma AddedHasPorts(flags: FlagMap, i: nat)
    requires flags == map[HttpPort := Int(9658 + (i + 1) * 2), StakingPort := Int(9659 + (i + 1) * 2)]
    ensures HasPorts(flags, 5 + i)
  {
  }

  /** The j-th port of the configuration, counting both ports of every node. */
  function Wanted(j: nat): int {
    FIRST_PORT + j
  }

  function Used(j: nat): Port {
    ToPort(Wanted(j))
  }

  /** The conversion to 16 bits changes none of the ports exactly up to 27943 nodes. */
  lemma PortsFitIff(n: nat)
    ensures (forall j: nat :: j < 2 * n ==> Used(j) == Wanted(j)) <==> n <= 27943
  {
    assert Used(2 * 27943) != Wanted(2 * 27943);
  }

  /** All ports in use are different exactly up to 32768 nodes. */
  lemma PortsDistinctIff(n: nat)
    ensures (forall j: nat, k: nat :: j < k < 2 * n ==> Used(j) != Used(k)) <==> n <= 32768
  {
    assert Used(0) == Used(65536);
  }
}
