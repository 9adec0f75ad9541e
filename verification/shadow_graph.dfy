/**
 * The shadow graph of a node tree: dictionaries of node ids and link ids
 * that mirror the host's live node tree. A link id is the id of its
 * from-socket followed by the id of its to-socket.
 *
 * The live tree the host hands out is modelled as data (LiveTree): its
 * nodes with their ids and names, and its links with their socket ids and
 * endpoint node ids. Looking the live tree up can fail (None).
 */
module ShadowGraph {
  import opened Wrappers

  // ---------------------------------------------------------------------------
  // The live host graph, as data

  datatype LiveNode = LiveNode(nodeId: string, name: string)

  datatype LiveLink = LiveLink(fromSocketId: string, toSocketId: string, fromNodeId: string, toNodeId: string)

  datatype LiveTree = LiveTree(treeId: string, nodes: seq<LiveNode>, links: seq<LiveLink>)

  /** The id a link is stored under: from-socket id concatenated with to-socket id. */
  function LinkId(link: LiveLink): string
  {
    link.fromSocketId + link.toSocketId
  }

  function NodeIds(nodes: seq<LiveNode>): set<string>
  {
    set n | n in nodes :: n.nodeId
  }

  /** The ids of a list of links, collected in order. */
  function LinkIds(links: seq<LiveLink>): set<string>
  {
    if links == [] then {} else LinkIds(links[..|links| - 1]) + {LinkId(links[|links| - 1])}
  }

  /** One more added link extends the collected key set by its id. */
  lemma {:induction false} LinkIdsStep(base: set<string>, before: set<string>, after: set<string>, links: seq<LiveLink>, j: nat)
    requires j < |links|
    requires before == base + LinkIds(links[..j])
    requires after == before + {LinkId(links[j])}
    ensures after == base + LinkIds(links[..j + 1])
  {
    assert links[..j + 1][..j] == links[..j];
  }

  /** The ids of a prefix of the links are among the ids of all of them. */
  lemma {:induction false} LinkIdsPrefix(links: seq<LiveLink>, j: nat)
    requires j <= |links|
    ensures LinkIds(links[..j]) <= LinkIds(links)
    decreases |links|
  {
    if j < |links| {
      var init := links[..|links| - 1];
      assert init[..j] == links[..j];
      LinkIdsPrefix(init, j);
    } else {
      assert links[..j] == links;
    }
  }

  /** Both endpoints of every link are among the known node ids. */
  predicate EndpointsKnown(links: seq<LiveLink>, known: set<string>)
  {
    links == [] ||
    (EndpointsKnown(links[..|links| - 1], known) &&
     links[|links| - 1].fromNodeId in known && links[|links| - 1].toNodeId in known)
  }

  lemma {:induction false} EndpointsKnownAll(links: seq<LiveLink>, known: set<string>)
    ensures EndpointsKnown(links, known) <==> forall l :: l in links ==> l.fromNodeId in known && l.toNodeId in known
  {
    if links != [] {
      var init := links[..|links| - 1];
      EndpointsKnownAll(init, known);
      assert links == init + [links[|links| - 1]];
    }
  }

  /** Every link of the live tree has both endpoints among the known node ids or the tree's own nodes. */
  ghost predicate LinksResolvable(live: LiveTree, known: set<string>)
  {
    forall l :: l in live.links ==>
      l.fromNodeId in known + NodeIds(live.nodes) && l.toNodeId in known + NodeIds(live.nodes)
  }

  /**
   * What updating a reconstruction reports, given the node ids the shadow
   * holds: nothing to do for an empty shadow; otherwise LookupError without
   * a live tree, and KeyError when a live link has an endpoint that is
   * neither a known node nor a live one.
   */
  ghost function UpdateOutcome(known: set<string>, live: Option<LiveTree>): Outcome
  {
    if known == {} then Pass
    else if live.None? then Fail(LookupError)
    else if LinksResolvable(live.value, known) then Pass
    else Fail(KeyError)
  }

  // ---------------------------------------------------------------------------
  // Shadow nodes and links

  class SvNode {
    const id: string
    const name: string
    var inputs: map<string, SvLink>
    var outputs: map<string, SvLink>

    constructor (nodeId: string, nodeName: string)
      ensures id == nodeId && name == nodeName
      ensures inputs == map[] && outputs == map[]
    {
      id := nodeId;
      name := nodeName;
      inputs := map[];
      outputs := map[];
    }
  }

  datatype SvLink = SvLink(id: string, fromNode: SvNode, toNode: SvNode)

  class NodesCollection {
    var nodes: map<string, SvNode>

    constructor ()
      ensures nodes == map[]
    {
      nodes := map[];
    }

    /** Stores a fresh shadow node under the node's id, replacing any node stored there. */
    method Add(node: LiveNode)
      modifies this
      ensures node.nodeId in nodes && fresh(nodes[node.nodeId])
      ensures nodes == old(nodes)[node.nodeId := nodes[node.nodeId]]
      ensures nodes[node.nodeId].id == node.nodeId && nodes[node.nodeId].name == node.name
      ensures nodes[node.nodeId].inputs == map[] && nodes[node.nodeId].outputs == map[]
    {
      var svNode := new SvNode(node.nodeId, node.name);
      nodes := nodes[node.nodeId := svNode];
    }

    /** Lookup by node id; a missing id raises KeyError. */
    function Get(item: string): (r: Result<SvNode>)
      reads this
      ensures r.Success? <==> item in nodes
      ensures r.Success? ==> r.value == nodes[item]
      ensures r.Failure? ==> r.error == KeyError
    {
      if item in nodes then Success(nodes[item]) else Failure(KeyError)
    }

    /** Equality with a set of ids compares the key set only. */
    predicate Equals(other: set<string>)
      reads this
    {
      nodes.Keys == other
    }
  }

  class LinksCollection {
    /** The node collection of the owning tree (the source reaches it through the tree). */
    const nodes: NodesCollection
    var links: map<string, SvLink>

    constructor (treeNodes: NodesCollection)
      ensures nodes == treeNodes && links == map[]
    {
      nodes := treeNodes;
      links := map[];
    }

    /** Equality with a set of ids compares the key set only. */
    predicate Equals(other: set<string>)
      reads this
    {
      links.Keys == other
    }

    /**
     * Every stored link is stored under its own id, and its from-node's
     * outputs and its to-node's inputs hold the same link under that id.
     */
    ghost predicate Consistent()
      reads this, set id | id in links :: links[id].fromNode, set id | id in links :: links[id].toNode
    {
      forall id :: id in links ==>
        links[id].id == id &&
        id in links[id].fromNode.outputs && links[id].fromNode.outputs[id] == links[id] &&
        id in links[id].toNode.inputs && links[id].toNode.inputs[id] == links[id]
    }

    /**
     * Adds a live link: both endpoint nodes must already be in the tree's
     * node collection (KeyError otherwise, with nothing changed); the same
     * SvLink is then stored in the from-node's outputs, the to-node's inputs
     * and the link map, under the link's id.
     */
    method Add(link: LiveLink) returns (outcome: Outcome)
      modifies this, nodes.nodes.Values
      ensures nodes.nodes == old(nodes.nodes)
      ensures outcome.Fail? <==> link.fromNodeId !in nodes.nodes || link.toNodeId !in nodes.nodes
      ensures outcome.Fail? ==> outcome.error == KeyError && links == old(links)
      ensures outcome.Fail? ==> forall n :: n in nodes.nodes.Values ==>
        n.inputs == old(n.inputs) && n.outputs == old(n.outputs)
      ensures outcome.Pass? ==>
        var f, t := nodes.nodes[link.fromNodeId], nodes.nodes[link.toNodeId];
        var sv := SvLink(LinkId(link), f, t);
        links == old(links)[LinkId(link) := sv] &&
        forall n :: n in nodes.nodes.Values ==>
          n.outputs == (if n == f then old(n.outputs)[LinkId(link) := sv] else old(n.outputs)) &&
          n.inputs == (if n == t then old(n.inputs)[LinkId(link) := sv] else old(n.inputs))
      ensures outcome.Pass? ==> links.Keys == old(links.Keys) + {LinkId(link)}
      ensures old(Consistent()) ==> Consistent()
    {
      var linkId := link.fromSocketId + link.toSocketId;
      var fromNode := nodes.Get(link.fromNodeId);
      if fromNode.Failure? {
        return Fail(fromNode.error);
      }
      var toNode := nodes.Get(link.toNodeId);
      if toNode.Failure? {
        return Fail(toNode.error);
      }
      var f, t := fromNode.value, toNode.value;
      var sv := SvLink(linkId, f, t);
      f.outputs := f.outputs[linkId := sv];
      t.inputs := t.inputs[linkId := sv];
      links := links[linkId := sv];
      outcome := Pass;
      if old(Consistent()) {
        forall id | id in links
          ensures links[id].id == id
          ensures id in links[id].fromNode.outputs && links[id].fromNode.outputs[id] == links[id]
          ensures id in links[id].toNode.inputs && links[id].toNode.inputs[id] == links[id]
        {
          if id != linkId {
            var l := old(links)[id];
            assert id in old(l.fromNode.outputs) && old(l.fromNode.outputs)[id] == l;
            assert id in old(l.toNode.inputs) && old(l.toNode.inputs)[id] == l;
          }
        }
      }
    }
  }

  // ---------------------------------------------------------------------------
  // The shadow tree

  class SvTree {
    const id: string
    const nodes: NodesCollection
    const links: LinksCollection

    ghost predicate Valid()
      reads this, links
    {
      links.nodes == nodes
    }

    constructor (treeId: string)
      ensures id == treeId && Valid()
      ensures fresh(nodes) && fresh(links)
      ensures nodes.nodes == map[] && links.links == map[]
    {
      id := treeId;
      var treeNodes := new NodesCollection();
      nodes := treeNodes;
      links := new LinksCollection(treeNodes);
    }

    /** As written: a total reconstruction is asked for when the shadow already holds nodes. */
    function NeedTotalReconstruction(): (r: bool)
      reads this, nodes
      ensures r <==> nodes.nodes != map[]
    {
      |nodes.nodes| != 0
    }

    /** The key sets of the shadow equal the node ids and the link ids of the live tree. */
    ghost predicate ReconstructionCorrect(live: LiveTree)
      reads this, nodes, links
    {
      links.Equals(LinkIds(live.links)) && nodes.Equals(NodeIds(live.nodes))
    }

    /**
     * Compares the shadow with the live tree; a live tree that cannot be
     * found raises LookupError. The source reports the verdict by printing it.
     */
    function CheckReconstructionCorrectness(live: Option<LiveTree>): (r: Result<bool>)
      reads this, nodes, links
      ensures live.None? <==> r == Failure(LookupError)
      ensures live.Some? ==> r.Success? && (r.value <==> ReconstructionCorrect(live.value))
    {
      match live
      case None => Failure(LookupError)
      case Some(t) => Success(links.Equals(LinkIds(t.links)) && nodes.Equals(NodeIds(t.nodes)))
    }

    /** The node half of a total reconstruction: every live node, in order. */
    method AddNodes(liveNodes: seq<LiveNode>)
      requires Valid()
      modifies nodes
      ensures Valid()
      ensures nodes.nodes.Keys == old(nodes.nodes.Keys) + NodeIds(liveNodes)
      ensures forall n :: n in nodes.nodes.Values ==> n in old(nodes.nodes.Values) || fresh(n)
    {
      var i := 0;
      while i < |liveNodes|
        invariant 0 <= i <= |liveNodes|
        invariant nodes.nodes.Keys == old(nodes.nodes.Keys) + NodeIds(liveNodes[..i])
        invariant forall n :: n in nodes.nodes.Values ==> n in old(nodes.nodes.Values) || fresh(n)
      {
        nodes.Add(liveNodes[i]);
        assert liveNodes[..i + 1] == liveNodes[..i] + [liveNodes[i]];
        i := i + 1;
      }
      assert liveNodes[..i] == liveNodes;
    }

    /**
     * The link half of a total reconstruction: every live link, in order,
     * stopping at the first one whose endpoint is not a known node.
     */
    method AddLinks(liveLinks: seq<LiveLink>) returns (outcome: Outcome)
      requires Valid()
      modifies links, nodes.nodes.Values
      ensures Valid() && nodes.nodes == old(nodes.nodes)
      ensures outcome.Pass? <==>
        forall l :: l in liveLinks ==> l.fromNodeId in nodes.nodes && l.toNodeId in nodes.nodes
      ensures outcome.Fail? ==> outcome.error == KeyError
      ensures outcome.Pass? ==> links.links.Keys == old(links.links.Keys) + LinkIds(liveLinks)
      ensures outcome.Fail? ==>
        exists j :: 0 <= j < |liveLinks| &&
          EndpointsKnown(liveLinks[..j], nodes.nodes.Keys) &&
          (liveLinks[j].fromNodeId !in nodes.nodes || liveLinks[j].toNodeId !in nodes.nodes) &&
          links.links.Keys == old(links.links.Keys) + LinkIds(liveLinks[..j])
      ensures outcome.Fail? ==>
        old(links.links.Keys) <= links.links.Keys <= old(links.links.Keys) + LinkIds(liveLinks)
      ensures old(links.Consistent()) ==> links.Consistent()
    {
      var j := 0;
      while j < |liveLinks|
        invariant 0 <= j <= |liveLinks|
        invariant nodes.nodes == old(nodes.nodes)
        invariant links.links.Keys == old(links.links.Keys) + LinkIds(liveLinks[..j])
        invariant EndpointsKnown(liveLinks[..j], old(nodes.nodes.Keys))
        invariant old(links.Consistent()) ==> links.Consistent()
      {
        ghost var before := links.links.Keys;
        outcome := links.Add(liveLinks[j]);
        if outcome.Fail? {
          LinkIdsPrefix(liveLinks, j);
          return;
        }
        assert liveLinks[..j + 1][..j] == liveLinks[..j];
        LinkIdsStep(old(links.links.Keys), before, links.links.Keys, liveLinks, j);
        j := j + 1;
      }
      assert liveLinks[..j] == liveLinks;
      EndpointsKnownAll(liveLinks, old(nodes.nodes.Keys));
      outcome := Pass;
    }

    /**
     * Adds every live node (fresh shadow nodes, replacing those with the same
     * id), then every live link. A missing live tree raises LookupError
     * before anything changes; a link whose endpoint is not a known node
     * raises KeyError, leaving the links added before it in place.
     */
    method TotalReconstruction(live: Option<LiveTree>) returns (outcome: Outcome)
      requires Valid()
      modifies nodes, links, nodes.nodes.Values
      ensures Valid()
      ensures live.None? ==>
        outcome == Fail(LookupError) && nodes.nodes == old(nodes.nodes) && links.links == old(links.links)
      ensures live.Some? ==> nodes.nodes.Keys == old(nodes.nodes.Keys) + NodeIds(live.value.nodes)
      ensures live.Some? ==>
        (outcome.Pass? <==> LinksResolvable(live.value, old(nodes.nodes.Keys)))
      ensures live.Some? && outcome.Fail? ==> outcome.error == KeyError
      ensures live.Some? && outcome.Pass? ==>
        links.links.Keys == old(links.links.Keys) + LinkIds(live.value.links)
      ensures live.Some? && outcome.Fail? ==>
        exists j :: 0 <= j < |live.value.links| &&
          EndpointsKnown(live.value.links[..j], nodes.nodes.Keys) &&
          (live.value.links[j].fromNodeId !in nodes.nodes || live.value.links[j].toNodeId !in nodes.nodes) &&
          links.links.Keys == old(links.links.Keys) + LinkIds(live.value.links[..j])
      ensures live.Some? && outcome.Fail? ==>
        old(links.links.Keys) <= links.links.Keys <= old(links.links.Keys) + LinkIds(live.value.links)
      ensures old(links.Consistent()) ==> links.Consistent()
      ensures old(nodes.nodes) == map[] && old(links.links) == map[] && live.Some? ==>
        (LinksResolvable(live.value, {}) ==> outcome.Pass? && ReconstructionCorrect(live.value))
    {
      if live.None? {
        return Fail(LookupError);
      }
      AddNodes(live.value.nodes);
      outcome := AddLinks(live.value.links);
    }

    /**
     * As written: reconstructs the whole shadow when it already holds nodes,
     * and does nothing otherwise, so a shadow that starts empty stays empty.
     * The debug-mode correctness report is not modelled.
     */
    method UpdateReconstruction(live: Option<LiveTree>) returns (outcome: Outcome)
      requires Valid()
      modifies nodes, links, nodes.nodes.Values
      ensures Valid()
      ensures old(nodes.nodes) == map[] ==>
        outcome.Pass? && nodes.nodes == map[] && links.links == old(links.links)
      ensures old(nodes.nodes) == map[] && live.Some? && live.value.nodes != [] ==>
        !ReconstructionCorrect(live.value)
      ensures old(nodes.nodes) != map[] && live.Some? ==>
        nodes.nodes.Keys == old(nodes.nodes.Keys) + NodeIds(live.value.nodes)
      ensures old(nodes.nodes) != map[] && live.Some? ==>
        (outcome.Pass? <==> LinksResolvable(live.value, old(nodes.nodes.Keys)))
      ensures old(nodes.nodes) != map[] && live.Some? && outcome.Pass? ==>
        links.links.Keys == old(links.links.Keys) + LinkIds(live.value.links)
      ensures old(nodes.nodes) != map[] && live.Some? && outcome.Fail? ==>
        exists j :: 0 <= j < |live.value.links| &&
          EndpointsKnown(live.value.links[..j], nodes.nodes.Keys) &&
          (live.value.links[j].fromNodeId !in nodes.nodes || live.value.links[j].toNodeId !in nodes.nodes) &&
          links.links.Keys == old(links.links.Keys) + LinkIds(live.value.links[..j])
      ensures live.Some? && outcome.Fail? ==>
        old(links.links.Keys) <= links.links.Keys <= old(links.links.Keys) + LinkIds(live.value.links)
      ensures old(nodes.nodes) != map[] && live.None? ==>
        outcome == Fail(LookupError) && nodes.nodes == old(nodes.nodes) && links.links == old(links.links)
      ensures outcome == UpdateOutcome(old(nodes.nodes.Keys), live)
      ensures old(links.Consistent()) ==> links.Consistent()
    {
      if NeedTotalReconstruction() {
        assert old(nodes.nodes.Keys) != {} by {
          var k :| k in nodes.nodes;
        }
        outcome := TotalReconstruction(live);
      } else {
        assert nodes.nodes.Keys == {};
        outcome := Pass;
        if live.Some? && live.value.nodes != [] {
          assert live.value.nodes[0].nodeId in NodeIds(live.value.nodes);
        }
      }
    }
  }
}
