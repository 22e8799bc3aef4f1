/** Which node a new room goes to. */
module Placement {
  import opened Options
  import opened Sorting
  import opened RoomTypes
  import opened Rooms

  /** The positions in `nodes` of its healthy nodes, in order. */
  ghost predicate Picks(nodes: seq<SfuNode>, at: seq<nat>) {
    && |at| == |Healthy(nodes)|
    && (forall i :: 0 <= i < |at| ==> at[i] < |nodes| && nodes[at[i]].healthy && Healthy(nodes)[i] == nodes[at[i]])
    && (forall i, j :: 0 <= i < j < |at| ==> at[i] < at[j])
    && (forall k :: 0 <= k < |nodes| && nodes[k].healthy ==> k in at)
  }

  lemma {:induction false} HealthyPicks(nodes: seq<SfuNode>) returns (at: seq<nat>)
    ensures Picks(nodes, at)
  {
    if nodes == [] {
      at := [];
    } else {
      var n := |nodes| - 1;
      at := HealthyPicks(nodes[..n]);
      if nodes[n].healthy {
        at := at + [n];
        assert n == at[|at| - 1];
      }
      forall k | 0 <= k < |nodes| && nodes[k].healthy
        ensures k in at
      {
        assert k < n ==> nodes[..n][k] == nodes[k];
      }
    }
  }

  /** getBestNode: the first healthy node of least load, and nothing only if no node is healthy. */
  lemma BestNodeIsBest(nodes: seq<SfuNode>)
    ensures BestNode(nodes).None? <==> forall k :: 0 <= k < |nodes| ==> !nodes[k].healthy
    ensures BestNode(nodes).Some? ==>
              exists i :: 0 <= i < |nodes| && nodes[i] == BestNode(nodes).value && FirstHealthyLeast(nodes, i)
  {
    var at := HealthyPicks(nodes);
    var healthy := Healthy(nodes);
    if healthy != [] {
      var i := SortHead(healthy, NoBusier, LoadOf);
      assert nodes[at[i]] == BestNode(nodes).value;
      forall k | 0 <= k < |nodes| && nodes[k].healthy
        ensures nodes[at[i]].load <= nodes[k].load && (k < at[i] ==> nodes[at[i]].load < nodes[k].load)
      {
        var j :| 0 <= j < |at| && at[j] == k;
        assert LoadOf(healthy[i]) <= LoadOf(healthy[j]);
      }
      assert FirstHealthyLeast(nodes, at[i]);
    }
  }

  ghost predicate FirstHealthyLeast(nodes: seq<SfuNode>, i: nat)
    requires i < |nodes|
  {
    && nodes[i].healthy
    && forall k :: 0 <= k < |nodes| && nodes[k].healthy ==>
         nodes[i].load <= nodes[k].load && (k < i ==> nodes[i].load < nodes[k].load)
  }
}
