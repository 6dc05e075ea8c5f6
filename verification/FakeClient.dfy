/** The fake clientset that stands in for the API server: a tracker of pods and one of nodes. */
module FakeClient {
  import opened Options
  import opened Cluster
  import opened Capacity

  datatype Node = Node(name: string, allocatable: Free)

  predicate HasNode(nodes: seq<Node>, name: string) {
    exists i | 0 <= i < |nodes| :: nodes[i].name == name
  }

  /** Creating an existing object and updating a missing one fail and change nothing. Every update is
      announced to the watchers: `modified` lists the pods announced so far. */
  class Clientset {
    var pods: Store
    var nodes: seq<Node>
    var modified: seq<Pod>

    constructor ()
      ensures pods == map[] && nodes == [] && modified == []
    {
      pods, nodes, modified := map[], [], [];
    }

    method GetPod(key: Key) returns (pod: Option<Pod>)
      ensures pod == if key in pods then Some(pods[key]) else None
    {
      pod := if key in pods then Some(pods[key]) else None;
    }

    method CreatePod(pod: Pod) returns (ok: bool)
      modifies this`pods
      ensures ok <==> KeyOf(pod) !in old(pods)
      ensures pods == if ok then old(pods)[KeyOf(pod) := pod] else old(pods)
    {
      ok := KeyOf(pod) !in pods;
      if ok {
        pods := pods[KeyOf(pod) := pod];
      }
    }

    method UpdatePod(pod: Pod) returns (ok: bool)
      modifies this`pods, this`modified
      ensures ok <==> KeyOf(pod) in old(pods)
      ensures pods == if ok then old(pods)[KeyOf(pod) := pod] else old(pods)
      ensures modified == if ok then old(modified) + [pod] else old(modified)
    {
      ok := KeyOf(pod) in pods;
      if ok {
        pods := pods[KeyOf(pod) := pod];
        modified := modified + [pod];
      }
    }

    method CreateNode(node: Node) returns (ok: bool)
      modifies this`nodes
      ensures ok <==> !HasNode(old(nodes), node.name)
      ensures nodes == if ok then old(nodes) + [node] else old(nodes)
    {
      ok := !HasNode(nodes, node.name);
      if ok {
        nodes := nodes + [node];
      }
    }
  }
}
