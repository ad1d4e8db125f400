/** The render graph of src/graphics/render_graph.rs: an ordered list of nodes,
    each with a `dirty` flag and the command buffers it recorded last. A frame
    calls every node's `prepare`, re-records the node when `prepare` asks for
    it or the node is dirty, and submits every node's current buffers, node by
    node. The graph has no dependency edges and no scheduling. */
module RenderGraph {
  import opened Gpu

  /** What a node's `prepare` reports; the frame only tests for `Record`. */
  datatype PrepareResult = Record | Reuse

  /** A node: its pipeline, a handle to its boxed pass behaviour, the command
      buffers it recorded last and whether it must be recorded this frame. */
  datatype Node = Node(pipeline: Pipeline, pass: nat, commandBuffers: seq<CommandBuffer>, dirty: bool)

  datatype Graph = Graph(nodes: seq<Node>)

  /** `RenderGraph::new`: a single node for the unlit pass, dirty so that it is
      recorded on the first frame. */
  function New(unlitPipeline: Pipeline, unlitPass: nat): (g: Graph)
    ensures |g.nodes| == 1
    ensures g.nodes[0].dirty && g.nodes[0].commandBuffers == []
    ensures g.nodes[0].pipeline == unlitPipeline && g.nodes[0].pass == unlitPass
  {
    Graph([Node(unlitPipeline, unlitPass, [], true)])
  }

  /** `add` ignores the pass it is given. */
  function Add(g: Graph, pass: nat): Graph
  {
    g
  }

  /** `remove` ignores the index it is given. */
  function Remove(g: Graph, index: nat): Graph
  {
    g
  }

  function Length(g: Graph): nat
  {
    |g.nodes|
  }

  /** `add` and `remove` leave the node list, and so `length`, as they were;
      `length` counts the nodes. */
  lemma AddAndRemoveChangeNothing(g: Graph, pass: nat, index: nat)
    ensures Add(g, pass).nodes == g.nodes && Remove(g, index).nodes == g.nodes
    ensures Length(Add(g, pass)) == Length(Remove(g, index)) == Length(g) == |g.nodes|
  {
  }

  // ---------------------------------------------------------------------
  // One frame

  /** What a node's pass does when the frame calls it: the result of `prepare`
      and the command buffer `render` returns if it is called. */
  datatype PassCall = PassCall(prepared: PrepareResult, recorded: CommandBuffer)

  /** The observable calls of a frame, in the order they happen. */
  datatype Event =
    | Prepared(node: nat)
    | Recorded(node: nat)
    | Submitted(node: nat, buffers: seq<CommandBuffer>)

  /** A node is re-recorded when `prepare` asks for it or when it is dirty;
      `prepare` is evaluated first, so it runs even for dirty nodes. */
  predicate Rerecords(n: Node, c: PassCall)
  {
    c.prepared == Record || n.dirty
  }

  /** The buffers a node holds once its turn in the frame is over. */
  function BuffersAfter(n: Node, c: PassCall): seq<CommandBuffer>
  {
    if Rerecords(n, c) then [c.recorded] else n.commandBuffers
  }

  /** The events of node `i`'s turn. */
  function NodeEvents(i: nat, n: Node, c: PassCall): seq<Event>
  {
    [Prepared(i)] + (if Rerecords(n, c) then [Recorded(i)] else []) + [Submitted(i, BuffersAfter(n, c))]
  }

  /** The events of the turns of the first `k` nodes. */
  function FrameEvents(nodes: seq<Node>, calls: seq<PassCall>, k: nat): seq<Event>
    requires k <= |nodes| == |calls|
  {
    if k == 0 then [] else FrameEvents(nodes, calls, k - 1) + NodeEvents(k - 1, nodes[k - 1], calls[k - 1])
  }

  /** `RenderGraph::render`: one frame over all nodes, in order. */
  method Render(g: Graph, calls: seq<PassCall>) returns (g': Graph, events: seq<Event>)
    requires |calls| == |g.nodes|
    ensures |g'.nodes| == |g.nodes|
    ensures forall i :: 0 <= i < |g.nodes| ==>
              && g'.nodes[i].pipeline == g.nodes[i].pipeline
              && g'.nodes[i].pass == g.nodes[i].pass
              && !g'.nodes[i].dirty
    ensures forall i :: 0 <= i < |g.nodes| ==>
              g'.nodes[i].commandBuffers
                == (if Rerecords(g.nodes[i], calls[i]) then [calls[i].recorded] else g.nodes[i].commandBuffers)
    ensures forall i :: 0 <= i < |g.nodes| && Rerecords(g.nodes[i], calls[i]) ==> |g'.nodes[i].commandBuffers| == 1
    ensures events == FrameEvents(g.nodes, calls, |g.nodes|)
  {
    var nodes := g.nodes;
    events := [];
    var i := 0;
    while i < |nodes|
      invariant 0 <= i <= |nodes| == |g.nodes|
      invariant forall j :: i <= j < |nodes| ==> nodes[j] == g.nodes[j]
      invariant forall j :: 0 <= j < i ==>
                  && nodes[j].pipeline == g.nodes[j].pipeline
                  && nodes[j].pass == g.nodes[j].pass
                  && !nodes[j].dirty
                  && nodes[j].commandBuffers == BuffersAfter(g.nodes[j], calls[j])
      invariant events == FrameEvents(g.nodes, calls, i)
    {
      var node := nodes[i];
      events := events + [Prepared(i)];
      if calls[i].prepared == Record || node.dirty {
        events := events + [Recorded(i)];
        node := node.(commandBuffers := [calls[i].recorded], dirty := false);
      }
      nodes := nodes[i := node];
      events := events + [Submitted(i, node.commandBuffers)];
      i := i + 1;
    }
    g' := Graph(nodes);
  }

  // ---------------------------------------------------------------------
  // What a frame guarantees

  /** The nodes whose `prepare` ran, in call order. */
  function PreparedNodes(events: seq<Event>): seq<nat>
  {
    if events == [] then []
    else PreparedNodes(events[..|events| - 1]) + (if events[|events| - 1].Prepared? then [events[|events| - 1].node] else [])
  }

  /** The buffers handed to the queue, submission by submission. */
  function Submissions(events: seq<Event>): seq<seq<CommandBuffer>>
  {
    if events == [] then []
    else Submissions(events[..|events| - 1]) + (if events[|events| - 1].Submitted? then [events[|events| - 1].buffers] else [])
  }

  lemma {:induction false} PreparedNodesAppend(a: seq<Event>, b: seq<Event>)
    ensures PreparedNodes(a + b) == PreparedNodes(a) + PreparedNodes(b)
    decreases |b|
  {
    if b == [] {
      assert a + b == a;
    } else {
      assert (a + b)[..|a + b| - 1] == a + b[..|b| - 1];
      PreparedNodesAppend(a, b[..|b| - 1]);
    }
  }

  lemma {:induction false} SubmissionsAppend(a: seq<Event>, b: seq<Event>)
    ensures Submissions(a + b) == Submissions(a) + Submissions(b)
    decreases |b|
  {
    if b == [] {
      assert a + b == a;
    } else {
      assert (a + b)[..|a + b| - 1] == a + b[..|b| - 1];
      SubmissionsAppend(a, b[..|b| - 1]);
    }
  }

  /** The events of a node's turn, spelled out. */
  lemma NodeEventsShape(i: nat, n: Node, c: PassCall)
    ensures Rerecords(n, c) ==> NodeEvents(i, n, c) == [Prepared(i), Recorded(i), Submitted(i, BuffersAfter(n, c))]
    ensures !Rerecords(n, c) ==> NodeEvents(i, n, c) == [Prepared(i), Submitted(i, BuffersAfter(n, c))]
  {
  }

  /** A node's turn prepares that node once and submits its buffers once. */
  lemma NodeEventsProjections(i: nat, n: Node, c: PassCall)
    ensures PreparedNodes(NodeEvents(i, n, c)) == [i]
    ensures Submissions(NodeEvents(i, n, c)) == [BuffersAfter(n, c)]
  {
    NodeEventsShape(i, n, c);
    var e := NodeEvents(i, n, c);
    var s := Submitted(i, BuffersAfter(n, c));
    assert [Prepared(i)][..0] == [];
    assert PreparedNodes([Prepared(i)]) == [i];
    assert Submissions([Prepared(i)]) == [];
    if Rerecords(n, c) {
      assert e[..2] == [Prepared(i), Recorded(i)];
      assert e[..2][..1] == [Prepared(i)];
      assert PreparedNodes(e[..2]) == [i];
      assert Submissions(e[..2]) == [];
    } else {
      assert e[..1] == [Prepared(i)];
    }
  }

  /** `prepare` runs exactly once per node per frame, in node order, dirty or not. */
  lemma {:induction false} EveryNodePreparedOnceInOrder(nodes: seq<Node>, calls: seq<PassCall>, k: nat)
    requires k <= |nodes| == |calls|
    ensures PreparedNodes(FrameEvents(nodes, calls, k)) == seq(k, i => i)
  {
    if k > 0 {
      EveryNodePreparedOnceInOrder(nodes, calls, k - 1);
      PreparedNodesAppend(FrameEvents(nodes, calls, k - 1), NodeEvents(k - 1, nodes[k - 1], calls[k - 1]));
      NodeEventsProjections(k - 1, nodes[k - 1], calls[k - 1]);
      assert seq(k, i => i) == seq(k - 1, i => i) + [k - 1];
    }
  }

  /** A node's turn adds exactly one submission, of its post-turn buffers. */
  lemma SubmissionsStep(nodes: seq<Node>, calls: seq<PassCall>, k: nat)
    requires 0 < k <= |nodes| == |calls|
    ensures Submissions(FrameEvents(nodes, calls, k))
            == Submissions(FrameEvents(nodes, calls, k - 1)) + [BuffersAfter(nodes[k - 1], calls[k - 1])]
  {
    SubmissionsAppend(FrameEvents(nodes, calls, k - 1), NodeEvents(k - 1, nodes[k - 1], calls[k - 1]));
    NodeEventsProjections(k - 1, nodes[k - 1], calls[k - 1]);
  }

  /** Every node's current buffers are submitted each frame, in node order,
      whether the node was re-recorded or not. */
  lemma {:induction false} EveryNodeSubmittedInOrder(nodes: seq<Node>, calls: seq<PassCall>, k: nat)
    requires k <= |nodes| == |calls|
    ensures var subs := Submissions(FrameEvents(nodes, calls, k));
            && |subs| == k
            && forall i :: 0 <= i < k ==> subs[i] == BuffersAfter(nodes[i], calls[i])
  {
    if k > 0 {
      var prev := Submissions(FrameEvents(nodes, calls, k - 1));
      EveryNodeSubmittedInOrder(nodes, calls, k - 1);
      SubmissionsStep(nodes, calls, k);
      var subs := Submissions(FrameEvents(nodes, calls, k));
      forall i | 0 <= i < k
        ensures subs[i] == BuffersAfter(nodes[i], calls[i])
      {
        if i < k - 1 {
          assert subs[i] == prev[i];
        }
      }
    }
  }

  /** A node's `render` is called in a frame exactly when `prepare` returned
      `Record` or the node was dirty. */
  lemma {:induction false} RecordedIffAskedOrDirty(nodes: seq<Node>, calls: seq<PassCall>, k: nat, i: nat)
    requires k <= |nodes| == |calls|
    ensures Recorded(i) in FrameEvents(nodes, calls, k) <==> i < k && Rerecords(nodes[i], calls[i])
  {
    if k > 0 {
      RecordedIffAskedOrDirty(nodes, calls, k - 1, i);
      var n, c := nodes[k - 1], calls[k - 1];
      assert Recorded(i) in NodeEvents(k - 1, n, c) <==> i == k - 1 && Rerecords(n, c);
    }
  }

  /** Once a frame has run, a later frame whose `prepare` calls all answer
      something other than `Record` re-records nothing: every node keeps, and
      submits again, the buffers it already had. */
  lemma {:induction false} CleanFrameKeepsBuffers(nodes: seq<Node>, first: seq<PassCall>, second: seq<PassCall>)
    requires |nodes| == |first| == |second|
    requires forall i :: 0 <= i < |second| ==> second[i].prepared != Record
    ensures var after := seq(|nodes|, i requires 0 <= i < |nodes| => nodes[i].(commandBuffers := BuffersAfter(nodes[i], first[i]), dirty := false));
            forall i :: 0 <= i < |nodes| ==>
              && !Rerecords(after[i], second[i])
              && BuffersAfter(after[i], second[i]) == BuffersAfter(nodes[i], first[i])
  {
  }
}
