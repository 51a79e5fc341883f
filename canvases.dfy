/** The conceptual canvas of api/canvases: records of
    api/canvases/models.py, the default-canvas helper of api/canvases/utils.py
    and the worker task of api/canvases/tasks.py that runs it for a new
    workflow. Canvases and nodes are tables keyed by primary key; the
    canvas-node membership (`CanvasNodeRelation`) is a set of pairs. */
module Canvases {

  import opened Common
  import opened Constants

  /** A `ConceptualCanvas` row; `workflow` is the workflow id as the event
      payload carries it. */
  datatype Canvas = Canvas(name: string, workflow: Value)

  /** A `ConceptualNode` row; `owner` is the canvas whose `navigator` the node
      is (its generic `object_id`). */
  datatype Node = Node(labelText: string, nodeType: string, groundedness: int, solidity: string, owner: Id)

  const DefaultCanvasName: string := "Default Canvas"

  /** A node as `ConceptualNode(label=..., node_type=...)` makes it,
      with the model's defaults for the other fields. */
  function NewNode(labelText: string, nodeType: string, owner: Id): (n: Node)
    ensures n.labelText == labelText && n.nodeType == nodeType && n.owner == owner
    ensures n.groundedness == 5 && n.solidity == PULSING.Value()
  {
    Node(labelText, nodeType, 5, PULSING.Value(), owner)
  }

  /** A key not in use (uuid4 picks one; the model picks one above every key). */
  method FreshKey(keys: set<Id>) returns (k: Id)
    ensures k !in keys
  {
    var rest := keys;
    k := 0;
    while rest != {}
      invariant rest <= keys
      invariant forall x | x in keys && x !in rest :: x < k
      decreases rest
    {
      var x :| x in rest;
      if k <= x {
        k := x + 1;
      }
      rest := rest - {x};
    }
    assert forall x | x in keys :: x < k;
  }

  class CanvasStore {
    var canvases: map<Id, Canvas>
    var nodes: map<Id, Node>
    /** `CanvasNodeRelation` rows, as (canvas, node) pairs. */
    var relations: set<(Id, Id)>

    /** Every node and membership refers to a stored canvas and node. */
    ghost predicate Valid()
      reads this
    {
      (forall n | n in nodes :: nodes[n].owner in canvases)
      && (forall r | r in relations :: r.0 in canvases && r.1 in nodes)
    }

    constructor ()
      ensures Valid() && canvases == map[] && nodes == map[] && relations == {}
    {
      canvases := map[];
      nodes := map[];
      relations := {};
    }
  }

  /** `create_new_canvas_by_workflow_id(workflow_id)`: saves one canvas named
      "Default Canvas" for the workflow, one NAVIGATION node labelled with the
      canvas name that the canvas owns as its navigator and counts among its
      nodes, and returns the canvas. Nothing stored before changes. */
  method CreateNewCanvasByWorkflowId(store: CanvasStore, workflow: Value) returns (canvasId: Id)
    requires store.Valid()
    modifies store
    ensures store.Valid()
    ensures canvasId !in old(store.canvases)
    ensures store.canvases == old(store.canvases)[canvasId := Canvas(DefaultCanvasName, workflow)]
    ensures exists nodeId | nodeId !in old(store.nodes) ::
      store.nodes == old(store.nodes)[nodeId := NewNode(DefaultCanvasName, NAVIGATION.Value(), canvasId)]
      && store.relations == old(store.relations) + {(canvasId, nodeId)}
  {
    canvasId := FreshKey(store.canvases.Keys);
    var canvas := Canvas(DefaultCanvasName, workflow);
    store.canvases := store.canvases[canvasId := canvas];

    var nodeId := FreshKey(store.nodes.Keys);
    // `navigator.add(node, bulk=False)` sets the node's owner and saves it.
    store.nodes := store.nodes[nodeId := NewNode(canvas.name, NAVIGATION.Value(), canvasId)];
    // `nodes.add(node)` stores the membership.
    store.relations := store.relations + {(canvasId, nodeId)};
  }

  /** Without a `workflow_id` the worker task raises ValueError; otherwise it
      creates the default canvas for that id. */
  function CanvasTaskOutcome(payload: map<string, Value>): (r: Outcome<Value>)
    ensures r.Raised? <==> Lookup(payload, "workflow_id") == Null
    ensures r.Raised? ==> r.error == ValueError("workflow_id can not be None.")
    ensures r.Ok? ==> r.value == payload["workflow_id"]
  {
    var workflowId := Lookup(payload, "workflow_id");
    if workflowId == Null then Raised(ValueError("workflow_id can not be None.")) else Ok(workflowId)
  }

  /** Only `workflow_id` decides the worker task's outcome: payloads that agree on it
      have the same outcome, whatever else they carry. */
  lemma CanvasTaskReadsOnlyWorkflowId(p: map<string, Value>, q: map<string, Value>)
    requires Lookup(p, "workflow_id") == Lookup(q, "workflow_id")
    ensures CanvasTaskOutcome(p) == CanvasTaskOutcome(q)
  {
  }

  /** `create_new_canvas(event_type, payload)`. */
  method CreateNewCanvas(store: CanvasStore, payload: map<string, Value>) returns (r: Outcome<Id>)
    requires store.Valid()
    modifies store
    ensures store.Valid()
    ensures CanvasTaskOutcome(payload).Raised? ==>
      r == Raised(CanvasTaskOutcome(payload).error)
      && store.canvases == old(store.canvases) && store.nodes == old(store.nodes) && store.relations == old(store.relations)
    ensures CanvasTaskOutcome(payload).Ok? ==>
      r.Ok? && r.value !in old(store.canvases)
      && store.canvases == old(store.canvases)[r.value := Canvas(DefaultCanvasName, payload["workflow_id"])]
      && |store.nodes.Keys| == |old(store.nodes).Keys| + 1
      && (exists nodeId | nodeId !in old(store.nodes) ::
            store.nodes == old(store.nodes)[nodeId := NewNode(DefaultCanvasName, NAVIGATION.Value(), r.value)]
            && store.relations == old(store.relations) + {(r.value, nodeId)})
  {
    var workflowId := Lookup(payload, "workflow_id");
    if workflowId == Null {
      return Raised(ValueError("workflow_id can not be None."));
    }
    var canvasId := CreateNewCanvasByWorkflowId(store, workflowId);
    r := Ok(canvasId);
  }
}
