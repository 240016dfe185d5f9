/** `useFloating` in `index.ts`: the context every interaction hook receives,
    and the layout effect that publishes it on the component's registry node. */
module Floating {
  import opened Types

  /** The context object for one render. `open` and `onOpenChange` are the
      optional props; `events` and `dataRef` are the instance's own pub-sub and
      data ref, created once; `refs` come from the positioning hook. */
  function UseFloatingContext(open: Option<bool>, onOpenChange: Option<Handle>, nodeId: Option<string>,
                              events: Handle, dataRef: Handle, refs: Refs): (ctx: FloatingContext)
    ensures ctx.open <==> open == Some(true)
    ensures ctx.onOpenChange == NoOp <==> onOpenChange.None?
    ensures onOpenChange.Some? ==> ctx.onOpenChange == Handler(onOpenChange.value)
    ensures ctx.nodeId == nodeId && ctx.events == events && ctx.dataRef == dataRef && ctx.refs == refs
  {
    FloatingContext(
      open.GetOr(false),
      if onOpenChange.Some? then Handler(onOpenChange.value) else NoOp,
      events, dataRef, nodeId, refs)
  }

  /** `nodes.find(node => node.id === nodeId)`, as a position; an undefined
      `nodeId` equals no id. */
  function FindNode(nodes: seq<FloatingNode>, nodeId: Option<string>): (r: Option<nat>)
    ensures r.Some? ==> nodeId.Some? && r.value < |nodes| && nodes[r.value].id == nodeId.value
    ensures r.Some? ==> forall j :: 0 <= j < r.value ==> nodes[j].id != nodeId.value
    ensures r.None? ==> nodeId.None? || forall j :: 0 <= j < |nodes| ==> nodes[j].id != nodeId.value
  {
    if nodes == [] || nodeId.None? then None
    else if nodes[0].id == nodeId.value then Some(0)
    else
      match FindNode(nodes[1..], nodeId)
      case Some(i) => Some(i + 1)
      case None => None
  }

  /** The registry after `node.context = context` on the found node: the
      first node with the id gets the context; every other entry, and the
      order and size of the registry, stay as they were. */
  function Patched(nodes: seq<FloatingNode>, nodeId: Option<string>, ctx: FloatingContext): (r: seq<FloatingNode>)
    ensures |r| == |nodes|
    ensures forall j :: 0 <= j < |nodes| ==> r[j].id == nodes[j].id && r[j].parentId == nodes[j].parentId
    ensures forall j :: 0 <= j < |nodes| ==>
              (r[j] != nodes[j] ==> nodeId == Some(nodes[j].id) && forall i :: 0 <= i < j ==> nodes[i].id != nodes[j].id)
    ensures forall j :: 0 <= j < |nodes| && nodeId == Some(nodes[j].id) &&
                        (forall i :: 0 <= i < j ==> nodes[i].id != nodes[j].id) ==>
              r[j].context == Some(ctx)
  {
    match FindNode(nodes, nodeId)
    case Some(i) => nodes[i := nodes[i].(context := Some(ctx))]
    case None => nodes
  }

  /** Without a matching node the registry is left unchanged. */
  lemma NoMatchNoChange(nodes: seq<FloatingNode>, nodeId: Option<string>, ctx: FloatingContext)
    requires nodeId.None? || forall j :: 0 <= j < |nodes| ==> nodes[j].id != nodeId.value
    ensures Patched(nodes, nodeId, ctx) == nodes
  {
  }

  /** `tree.nodesRef`: the registry a `FloatingTree` shares with its nodes. */
  class FloatingTree {
    var nodes: seq<FloatingNode>

    constructor (nodes: seq<FloatingNode>)
      ensures this.nodes == nodes
    {
      this.nodes := nodes;
    }
  }

  /** The layout effect: outside a tree (`tree` null) nothing happens. */
  method PublishContext(tree: FloatingTree?, nodeId: Option<string>, ctx: FloatingContext)
    modifies tree
    ensures tree != null ==> tree.nodes == Patched(old(tree.nodes), nodeId, ctx)
  {
    if tree != null {
      var found := FindNode(tree.nodes, nodeId);
      if found.Some? {
        var i := found.value;
        tree.nodes := tree.nodes[i := tree.nodes[i].(context := Some(ctx))];
      }
    }
  }

  /** A menu item registered under a parent publishes its context; the
      parent's entry is untouched. */
  method PublishExample() returns (nodes: seq<FloatingNode>)
    ensures |nodes| == 2
    ensures nodes[0] == FloatingNode("a", None, None)
    ensures nodes[1].id == "b" && nodes[1].context.Some? && nodes[1].context.value.open
  {
    var tree := new FloatingTree([FloatingNode("a", None, None), FloatingNode("b", Some("a"), None)]);
    var ctx := UseFloatingContext(Some(true), None, Some("b"), Handle(0), Handle(1), Refs(None, None));
    PublishContext(tree, Some("b"), ctx);
    nodes := tree.nodes;
  }
}
