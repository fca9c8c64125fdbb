/** `collect`: one report stamped with a single timestamp, holding one node
    record per configured node and one service record per configured service,
    both in configuration order. */
module Collector {

  import opened Wrappers
  import opened Health
  import opened Dispatch

  /** The node rule: a node that answered the ping is ok and last seen now;
      one that did not is bad and has no last-seen time. Name, role and os are
      copied, and the latency is the ping's. */
  ghost predicate NodeReported(node: NodeDescriptor, latency: Option<nat>, now: string, r: NodeRecord) {
    && r.name == node.name && r.role == node.role && r.os == node.os
    && r.latencyMs == latency
    && (r.status == Bad <==> latency.None?)
    && (r.status == Ok <==> latency.Some?)
    && (r.lastSeen.None? <==> latency.None?)
    && (r.lastSeen.Some? ==> r.lastSeen.value == now)
  }

  /** What `collect` guarantees of the report it returns for these inputs. */
  ghost predicate Collected(now: string, nodes: seq<NodeDescriptor>, services: seq<ServiceDescriptor>,
                            net: Network, report: Report)
  {
    && report.generatedAt == now
    && |report.nodes| == |nodes|
    && (forall i :: 0 <= i < |nodes| ==>
          NodeReported(nodes[i], net.ping(nodes[i].host), now, report.nodes[i]))
    && |report.services| == |services|
    && (forall i :: 0 <= i < |services| ==> report.services[i] == CheckService(services[i], now, net))
  }

  /** Every timestamp in the report is the report's own: each service's
      `checked_at` and each node's non-null `last_seen` equal `generated_at`. */
  ghost predicate SingleInstant(report: Report) {
    && (forall i :: 0 <= i < |report.services| ==> report.services[i].checkedAt == report.generatedAt)
    && (forall i :: 0 <= i < |report.nodes| ==>
          report.nodes[i].lastSeen.Some? ==> report.nodes[i].lastSeen.value == report.generatedAt)
  }

  /** `collect`, given the timestamp taken at its start and the parsed node and
      service lists. */
  method Collect(now: string, nodes: seq<NodeDescriptor>, services: seq<ServiceDescriptor>, net: Network)
    returns (report: Report)
    ensures Collected(now, nodes, services, net, report)
    ensures SingleInstant(report)
  {
    var results: seq<NodeRecord> := [];
    var k := 0;
    while k < |nodes|
      invariant 0 <= k <= |nodes|
      invariant |results| == k
      invariant forall i :: 0 <= i < k ==> NodeReported(nodes[i], net.ping(nodes[i].host), now, results[i])
    {
      var node := nodes[k];
      var latency := net.ping(node.host);
      var status: Level;
      var lastSeen: Option<string>;
      if latency.None? {
        status := Bad;
        lastSeen := None;
      } else {
        status := Ok;
        lastSeen := Some(now);
      }
      results := results + [NodeRecord(node.name, node.role, node.os, status, latency, lastSeen)];
      k := k + 1;
    }
    var serviceResults := seq(|services|, i requires 0 <= i < |services| => CheckService(services[i], now, net));
    report := Report(now, results, serviceResults);
    CollectedHasSingleInstant(now, nodes, services, net, report);
  }

  /** A collected report carries one logical instant. */
  lemma CollectedHasSingleInstant(now: string, nodes: seq<NodeDescriptor>, services: seq<ServiceDescriptor>,
                                  net: Network, report: Report)
    requires Collected(now, nodes, services, net, report)
    ensures SingleInstant(report)
  {
    forall i | 0 <= i < |report.nodes| && report.nodes[i].lastSeen.Some?
      ensures report.nodes[i].lastSeen.value == report.generatedAt
    {
      assert NodeReported(nodes[i], net.ping(nodes[i].host), now, report.nodes[i]);
    }
  }

  /** The guarantee of Collect pins the report down: for the same inputs there
      is exactly one report that satisfies it. */
  lemma CollectedIsDeterministic(now: string, nodes: seq<NodeDescriptor>, services: seq<ServiceDescriptor>,
                                 net: Network, r1: Report, r2: Report)
    requires Collected(now, nodes, services, net, r1)
    requires Collected(now, nodes, services, net, r2)
    ensures r1 == r2
  {
    forall i | 0 <= i < |nodes| ensures r1.nodes[i] == r2.nodes[i] {
      assert NodeReported(nodes[i], net.ping(nodes[i].host), now, r1.nodes[i]);
      assert NodeReported(nodes[i], net.ping(nodes[i].host), now, r2.nodes[i]);
    }
    assert r1.nodes == r2.nodes;
    assert r1.services == r2.services;
  }

  /** The order and names of the report's records do not depend on what the
      probes answered or on the time: two collections over the same
      configuration list the same names, and the same service types, in the
      same order. */
  lemma ShapeIsStable(nodes: seq<NodeDescriptor>, services: seq<ServiceDescriptor>,
                      now1: string, net1: Network, r1: Report,
                      now2: string, net2: Network, r2: Report)
    requires Collected(now1, nodes, services, net1, r1)
    requires Collected(now2, nodes, services, net2, r2)
    ensures |r1.nodes| == |r2.nodes| && |r1.services| == |r2.services|
    ensures forall i :: 0 <= i < |r1.nodes| ==> r1.nodes[i].name == r2.nodes[i].name
    ensures forall i :: 0 <= i < |r1.services| ==>
      r1.services[i].name == r2.services[i].name && r1.services[i].serviceType == r2.services[i].serviceType
  {
    forall i | 0 <= i < |r1.nodes| ensures r1.nodes[i].name == r2.nodes[i].name {
      assert NodeReported(nodes[i], net1.ping(nodes[i].host), now1, r1.nodes[i]);
      assert NodeReported(nodes[i], net2.ping(nodes[i].host), now2, r2.nodes[i]);
    }
  }

  /** A node "pi" at 10.0.0.2 whose ping fails is reported as bad, with its
      role and os, and with neither latency nor last-seen time. */
  lemma UnreachableNodeExample(now: string, net: Network, report: Report)
    requires net.ping("10.0.0.2") == None
    requires Collected(now, [NodeDescriptor("pi", "10.0.0.2", "edge", "linux")], [], net, report)
    ensures report.nodes == [NodeRecord("pi", "edge", "linux", Bad, None, None)]
  {
    var node := NodeDescriptor("pi", "10.0.0.2", "edge", "linux");
    assert NodeReported(node, None, now, report.nodes[0]);
  }
}
