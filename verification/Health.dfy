/** The health check of the SFU nodes, and where new rooms go after it. */
module Health {
  import opened Options
  import opened RoomTypes
  import opened Rooms
  import opened Placement

  /**
   * What Redis knows about a node when its health is checked: heartbeat age and router count, each if there is one, or
   * a failed read. A heartbeat that is no number counts as too old, and statistics without a count as zero.
   */
  datatype NodeReport = Unreadable | Report(age: Option<int>, routers: Option<nat>)

  const HEARTBEAT_LIMIT := 60000

  function Checked(n: SfuNode, report: NodeReport): SfuNode {
    match report
    case Unreadable => n.(healthy := false)
    case Report(age, routers) =>
      n.(healthy := if age.Some? then age.value < HEARTBEAT_LIMIT else n.healthy,
         load := if routers.Some? then routers.value else n.load)
  }

  function AfterCheck(nodes: seq<SfuNode>, reports: seq<NodeReport>): (r: seq<SfuNode>)
    requires |reports| == |nodes|
    ensures |r| == |nodes| && forall i :: 0 <= i < |r| ==> r[i] == Checked(nodes[i], reports[i])
  {
    seq(|nodes|, i requires 0 <= i < |nodes| => Checked(nodes[i], reports[i]))
  }

  /** The report could be read, and its heartbeat is younger than a minute; without one, the node was healthy before. */
  predicate Alive(n: SfuNode, report: NodeReport) {
    report.Report? && ((report.age.None? && n.healthy) || (report.age.Some? && report.age.value < 60000))
  }

  /** The routers the node reported last. */
  function Reported(n: SfuNode, report: NodeReport): nat {
    if report.Report? && report.routers.Some? then report.routers.value else n.load
  }

  /** The first of the nodes that are alive with the fewest reported routers. */
  ghost predicate FirstAlive(nodes: seq<SfuNode>, reports: seq<NodeReport>, i: nat)
    requires |reports| == |nodes| && i < |nodes|
  {
    && Alive(nodes[i], reports[i])
    && forall k :: 0 <= k < |nodes| && Alive(nodes[k], reports[k]) ==>
         && Reported(nodes[i], reports[i]) <= Reported(nodes[k], reports[k])
         && (k < i ==> Reported(nodes[i], reports[i]) < Reported(nodes[k], reports[k]))
  }

  /**
   * After a health check, new rooms go to the first node alive with the fewest routers, and to none only if none is
   * alive.
   */
  lemma ChosenIsAlive(nodes: seq<SfuNode>, reports: seq<NodeReport>)
    requires |reports| == |nodes|
    ensures var best := BestNode(AfterCheck(nodes, reports));
            && (best.None? <==> forall k :: 0 <= k < |nodes| ==> !Alive(nodes[k], reports[k]))
            && (best.Some? ==> exists i: nat ::
                  && i < |nodes| && FirstAlive(nodes, reports, i)
                  && best.value.id == nodes[i].id && best.value.address == nodes[i].address
                  && best.value.load == Reported(nodes[i], reports[i]))
  {
    hide BestNode;
    var after := AfterCheck(nodes, reports);
    BestNodeIsBest(after);
    forall k | 0 <= k < |nodes|
      ensures after[k].healthy == Alive(nodes[k], reports[k])
      ensures Alive(nodes[k], reports[k]) ==> after[k].load == Reported(nodes[k], reports[k])
    {
    }
    if BestNode(after).Some? {
      var i :| 0 <= i < |after| && after[i] == BestNode(after).value && FirstHealthyLeast(after, i);
      assert FirstAlive(nodes, reports, i);
    }
  }

  /** The host of a node's HTTP origin is the node's address. */
  lemma HostOfNode(address: string)
    requires '/' !in address
    ensures HostOf("http://" + address) == address && HostOf("https://" + address) == address
  {
    assert ("http://" + address)[7..] == address && ("https://" + address)[8..] == address;
    assert ("http://" + address)[..7] == "http://" && ("https://" + address)[..8] == "https://";
    assert ("https://" + address)[4] == 's';
    NoSlash(address);
  }

  lemma {:induction false} NoSlash(s: string)
    requires '/' !in s
    ensures UpToSlash(s) == s
  {
    if s != "" {
      NoSlash(s[1..]);
      assert s == [s[0]] + s[1..];
    }
  }
}
