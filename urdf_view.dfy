/** Drawing a kinematic graph (a URDF transform manager): coordinate frames
    for its nodes and the geometry of its visual and collision objects.

    The transform manager is external: its node list, whether it carries
    `collision_objects` / `visuals` attributes, and its transform lookup
    (None where it cannot connect two frames) are given. Reading a mesh
    file is I/O: `vertexCount` gives the number of vertices a file
    holds. */
module UrdfView {
  import opened LinearAlgebra
  import opened Scene

  /** The URDF geometry kinds, each with its own `show`. */
  datatype Shape =
    | Box
    | Sphere
    | Cylinder
    | Mesh(frame: string, meshPath: Option<string>, filename: string, scale: real)

  datatype TransformManager = TransformManager(
    nodes: seq<string>,
    collisionObjects: Option<seq<Shape>>,  // None: no such attribute
    visuals: Option<seq<Shape>>,           // None: no such attribute
    getTransform: (string, string) -> Option<Transform>)

  /** What `show` adds for one shape drawn relative to `frame`. */
  function ShapeEffect(shape: Shape, tm: TransformManager, frame: string, c: Option<Rgb>,
                       vertexCount: string -> nat): (e: Effect)
    ensures !shape.Mesh? ==> e == Effect([], Fail(NotImplemented))
    ensures shape.Mesh? && shape.meshPath.None? ==> e == Effect([], Pass)
    ensures shape.Mesh? && shape.meshPath.Some? && tm.getTransform(shape.frame, frame).None? ==>
      e == Effect([], Fail(UnknownFrame))
    ensures shape.Mesh? && shape.meshPath.Some? && tm.getTransform(shape.frame, frame).Some? ==>
      && e.outcome == Pass
      && |e.added| == 1
      && e.added[0].TriangleMesh?
      && Some(e.added[0].pose) == tm.getTransform(shape.frame, frame)
      && e.added[0].filename == shape.filename
      && e.added[0].scale == shape.scale
      && (c.None? <==> e.added[0].vertexColours.None?)
      && (c.Some? ==>
            && |e.added[0].vertexColours.value| == vertexCount(shape.filename)
            && forall i :: 0 <= i < vertexCount(shape.filename) ==> e.added[0].vertexColours.value[i] == c.value)
  {
    match shape
    case Box => Effect([], Fail(NotImplemented))
    case Sphere => Effect([], Fail(NotImplemented))
    case Cylinder => Effect([], Fail(NotImplemented))
    case Mesh(meshFrame, meshPath, filename, scale) =>
      if meshPath.None? then Nothing
      else match tm.getTransform(meshFrame, frame)
        case None => Effect([], Fail(UnknownFrame))
        case Some(A2B) =>
          var colours := if c.None? then None else Some(Repeat(c.value, vertexCount(filename)));
          Effect([TriangleMesh(A2B, filename, scale, colours)], Pass)
  }

  function ShapeStepper(tm: TransformManager, frame: string, c: Option<Rgb>,
                        vertexCount: string -> nat): Shape -> Effect {
    shape => ShapeEffect(shape, tm, frame, c, vertexCount)
  }

  /** `_add_objects`: `show` for every object in order. */
  function ObjectsEffect(objects: seq<Shape>, tm: TransformManager, frame: string, c: Option<Rgb>,
                         vertexCount: string -> nat): Effect {
    Sequence(objects, ShapeStepper(tm, frame, c, vertexCount))
  }

  /** Drawing a list of objects succeeds exactly when it holds only meshes,
      each without a path or with a pose relative to `frame`; a box, sphere
      or cylinder anywhere makes it fail, and nothing after the first failing
      object is drawn. */
  lemma ObjectsPassIff(objects: seq<Shape>, tm: TransformManager, frame: string, c: Option<Rgb>,
                       vertexCount: string -> nat)
    ensures ObjectsEffect(objects, tm, frame, c, vertexCount).outcome.Pass? <==>
      forall i :: 0 <= i < |objects| ==>
        objects[i].Mesh? && (objects[i].meshPath.Some? ==> tm.getTransform(objects[i].frame, frame).Some?)
    ensures forall k :: 0 <= k < |objects| && !objects[k].Mesh? ==>
      ObjectsEffect(objects, tm, frame, c, vertexCount) == ObjectsEffect(objects[..k + 1], tm, frame, c, vertexCount)
  {
    var step := ShapeStepper(tm, frame, c, vertexCount);
    SequencePassesIff(objects, step);
    forall k | 0 <= k < |objects| && !objects[k].Mesh?
      ensures Sequence(objects, step) == Sequence(objects[..k + 1], step)
    {
      SequenceStopsAtFailure(objects, step, k);
    }
  }

  /** Whether `_add_frame` draws `node` for this whitelist. */
  predicate Listed(node: string, whitelist: Option<seq<string>>) {
    whitelist.None? || node in whitelist.value
  }

  /** `_add_frame` for one node. */
  function NodeFrameEffect(tm: TransformManager, node: string, frame: string,
                           whitelist: Option<seq<string>>, s: real): (e: Effect)
    ensures !Listed(node, whitelist) ==> e == Nothing
    ensures Listed(node, whitelist) ==>
      (e.outcome.Pass? <==> tm.getTransform(node, frame).Some?)
      && (e.outcome.Fail? ==> e == Effect([], Fail(UnknownFrame)))
      && (e.outcome.Pass? ==> e.added == [CoordinateFrame(tm.getTransform(node, frame).value, s)])
  {
    if !Listed(node, whitelist) then Nothing
    else match tm.getTransform(node, frame)
      case None => Effect([], Fail(UnknownFrame))
      case Some(A2B) => Effect([CoordinateFrame(A2B, s)], Pass)
  }

  function NodeFrameStepper(tm: TransformManager, frame: string, whitelist: Option<seq<string>>,
                            s: real): string -> Effect {
    node => NodeFrameEffect(tm, node, frame, whitelist, s)
  }

  /** The frame loop over `nodes`. */
  function NodeFramesEffect(tm: TransformManager, nodes: seq<string>, frame: string,
                            whitelist: Option<seq<string>>, s: real): Effect {
    Sequence(nodes, NodeFrameStepper(tm, frame, whitelist, s))
  }

  /** The nodes that pass the whitelist, in node order. */
  function Selected(nodes: seq<string>, whitelist: Option<seq<string>>): (r: seq<string>)
    ensures |r| <= |nodes|
    ensures forall i :: 0 <= i < |r| ==> Listed(r[i], whitelist)
  {
    if nodes == [] then []
    else Selected(nodes[..|nodes| - 1], whitelist)
         + (if Listed(nodes[|nodes| - 1], whitelist) then [nodes[|nodes| - 1]] else [])
  }

  /** The selection is the whitelist filter: a node is selected exactly when
      it is a node and listed, each selected node occurs as often as in the
      node list, and without a whitelist every node is selected. */
  lemma {:induction false} SelectedIsFilter(nodes: seq<string>, whitelist: Option<seq<string>>)
    ensures forall x :: x in Selected(nodes, whitelist) <==> x in nodes && Listed(x, whitelist)
    ensures |Selected(nodes, whitelist)| <= |nodes|
    ensures whitelist.None? ==> Selected(nodes, whitelist) == nodes
    ensures forall x :: multiset(Selected(nodes, whitelist))[x] == if Listed(x, whitelist) then multiset(nodes)[x] else 0
  {
    SelectedCounts(nodes, whitelist);
    var selected := Selected(nodes, whitelist);
    assert forall x :: x in selected <==> multiset(selected)[x] > 0;
    assert forall x :: x in nodes <==> multiset(nodes)[x] > 0;
    if whitelist.None? {
      SelectedAll(nodes);
    }
  }

  lemma {:induction false} SelectedAll(nodes: seq<string>)
    ensures Selected(nodes, None) == nodes
  {
    if nodes != [] {
      SelectedAll(nodes[..|nodes| - 1]);
      assert nodes == nodes[..|nodes| - 1] + [nodes[|nodes| - 1]];
    }
  }

  lemma {:induction false} SelectedCounts(nodes: seq<string>, whitelist: Option<seq<string>>)
    ensures forall x :: multiset(Selected(nodes, whitelist))[x] == if Listed(x, whitelist) then multiset(nodes)[x] else 0
  {
    if nodes != [] {
      var init, last := nodes[..|nodes| - 1], nodes[|nodes| - 1];
      SelectedCounts(init, whitelist);
      assert nodes == init + [last];
      assert multiset(nodes) == multiset(init) + multiset{last};
      var tail := if Listed(last, whitelist) then [last] else [];
      assert multiset(Selected(nodes, whitelist)) == multiset(Selected(init, whitelist)) + multiset(tail);
    }
  }

  /** When every selected node can be posed, the frame loop adds one frame
      of size s per selected node, in node order, posed by the transform
      from that node to `frame`. */
  lemma {:induction false} NodeFramesFollowWhitelist(tm: TransformManager, nodes: seq<string>, frame: string,
                                                     whitelist: Option<seq<string>>, s: real)
    requires forall x :: x in nodes && Listed(x, whitelist) ==> tm.getTransform(x, frame).Some?
    ensures var e := NodeFramesEffect(tm, nodes, frame, whitelist, s);
      var selected := Selected(nodes, whitelist);
      && e.outcome == Pass
      && |e.added| == |selected|
      && forall i :: 0 <= i < |selected| ==>
           && e.added[i].CoordinateFrame?
           && e.added[i].size == s
           && Some(e.added[i].pose) == tm.getTransform(selected[i], frame)
  {
    if nodes != [] {
      var init := nodes[..|nodes| - 1];
      NodeFramesFollowWhitelist(tm, init, frame, whitelist, s);
    }
  }

  /** One optional object group: drawn when its flag is set and the
      transform manager has the attribute. */
  function GroupEffect(flag: bool, objects: Option<seq<Shape>>, tm: TransformManager, frame: string,
                       c: Option<Rgb>, vertexCount: string -> nat): Effect {
    if flag && objects.Some? then ObjectsEffect(objects.value, tm, frame, c, vertexCount) else Nothing
  }

  /** Everything `show_urdf_transform_manager` adds: collision objects, then
      visuals, then node frames, each group skipped when switched off and a
      failing group ending the call. */
  function GraphEffect(tm: TransformManager, frame: string, collisionObjects: bool, visuals: bool,
                       frames: bool, whitelist: Option<seq<string>>, s: real, c: Option<Rgb>,
                       vertexCount: string -> nat): Effect {
    Then(Then(GroupEffect(collisionObjects, tm.collisionObjects, tm, frame, c, vertexCount),
              GroupEffect(visuals, tm.visuals, tm, frame, c, vertexCount)),
         if frames then NodeFramesEffect(tm, tm.nodes, frame, whitelist, s) else Nothing)
  }

  /** The groups are drawn in the order collision objects, visuals, frames;
      a group adds nothing unless its flag is set and the attribute exists;
      a failing group stops the later ones. */
  lemma GraphGroupsInOrder(tm: TransformManager, frame: string, collisionObjects: bool, visuals: bool,
                           frames: bool, whitelist: Option<seq<string>>, s: real, c: Option<Rgb>,
                           vertexCount: string -> nat)
    ensures var collision := GroupEffect(collisionObjects, tm.collisionObjects, tm, frame, c, vertexCount);
      var visual := GroupEffect(visuals, tm.visuals, tm, frame, c, vertexCount);
      var nodeFrames := if frames then NodeFramesEffect(tm, tm.nodes, frame, whitelist, s) else Nothing;
      var e := GraphEffect(tm, frame, collisionObjects, visuals, frames, whitelist, s, c, vertexCount);
      && (!(collisionObjects && tm.collisionObjects.Some?) ==> collision == Nothing)
      && (!(visuals && tm.visuals.Some?) ==> visual == Nothing)
      && (!frames ==> nodeFrames == Nothing)
      && (collision.outcome.Fail? ==> e == collision)
      && (collision.outcome.Pass? && visual.outcome.Fail? ==>
            e == Effect(collision.added + visual.added, visual.outcome))
      && (collision.outcome.Pass? && visual.outcome.Pass? ==>
            e == Effect(collision.added + visual.added + nodeFrames.added, nodeFrames.outcome))
  {
  }

  /** Frames only: one frame per whitelisted node in node order, posed
      relative to `frame`, and nothing else. */
  lemma FramesOnlyGraph(tm: TransformManager, frame: string, whitelist: Option<seq<string>>, s: real,
                        c: Option<Rgb>, vertexCount: string -> nat)
    requires forall x :: x in tm.nodes && Listed(x, whitelist) ==> tm.getTransform(x, frame).Some?
    ensures var e := GraphEffect(tm, frame, false, false, true, whitelist, s, c, vertexCount);
      var selected := Selected(tm.nodes, whitelist);
      && e.outcome == Pass
      && |e.added| == |selected|
      && forall i :: 0 <= i < |selected| ==>
           && e.added[i].CoordinateFrame?
           && e.added[i].size == s
           && Some(e.added[i].pose) == tm.getTransform(selected[i], frame)
  {
    NodeFramesFollowWhitelist(tm, tm.nodes, frame, whitelist, s);
  }

  /** `show` on one shape (the per-kind `box_show`, `sphere_show`,
      `cylinder_show` and `mesh_show`). */
  method Show(shape: Shape, figure: Figure, tm: TransformManager, frame: string, c: Option<Rgb>,
              vertexCount: string -> nat) returns (out: Outcome)
    modifies figure
    ensures figure.geometries == old(figure.geometries) + ShapeEffect(shape, tm, frame, c, vertexCount).added
    ensures out == ShapeEffect(shape, tm, frame, c, vertexCount).outcome
  {
    match shape
    case Box => return Fail(NotImplemented);
    case Sphere => return Fail(NotImplemented);
    case Cylinder => return Fail(NotImplemented);
    case Mesh(meshFrame, meshPath, filename, scale) =>
      if meshPath.None? {
        return Pass;  // mesh_show only prints "No mesh path given"
      }
      var pose := tm.getTransform(meshFrame, frame);
      if pose.None? {
        return Fail(UnknownFrame);
      }
      var colours: Option<seq<Rgb>> := None;
      if c.Some? {
        colours := Some(Repeat(c.value, vertexCount(filename)));
      }
      figure.AddGeometry(TriangleMesh(pose.value, filename, scale, colours));
      return Pass;
  }

  /** `_add_objects` */
  method AddObjects(figure: Figure, tm: TransformManager, objects: seq<Shape>, frame: string, c: Option<Rgb>,
                    vertexCount: string -> nat) returns (out: Outcome)
    modifies figure
    ensures figure.geometries == old(figure.geometries) + ObjectsEffect(objects, tm, frame, c, vertexCount).added
    ensures out == ObjectsEffect(objects, tm, frame, c, vertexCount).outcome
  {
    var step := ShapeStepper(tm, frame, c, vertexCount);
    for i := 0 to |objects|
      invariant figure.geometries == old(figure.geometries) + Sequence(objects[..i], step).added
      invariant Sequence(objects[..i], step).outcome == Pass
    {
      SequenceStep(objects, i, step);
      out := Show(objects[i], figure, tm, frame, c, vertexCount);
      if out.Fail? {
        SequenceStopsAtFailure(objects, step, i);
        return;
      }
    }
    assert objects[..|objects|] == objects;
    out := Pass;
  }

  /** `_add_frame` */
  method AddNodeFrame(figure: Figure, tm: TransformManager, fromFrame: string, toFrame: string,
                      whitelist: Option<seq<string>>, s: real) returns (out: Outcome)
    modifies figure
    ensures figure.geometries == old(figure.geometries) + NodeFrameEffect(tm, fromFrame, toFrame, whitelist, s).added
    ensures out == NodeFrameEffect(tm, fromFrame, toFrame, whitelist, s).outcome
  {
    if whitelist.Some? && fromFrame !in whitelist.value {
      return Pass;
    }
    var A2B := tm.getTransform(fromFrame, toFrame);
    if A2B.None? {
      return Fail(UnknownFrame);
    }
    var f := new Frame(A2B.value, s := s);
    f.AddFrame(figure);
    return Pass;
  }

  /** The frame loop of `show_urdf_transform_manager`: `_add_frame` for
      every node in order. */
  method AddNodeFrames(figure: Figure, tm: TransformManager, nodes: seq<string>, frame: string,
                       whitelist: Option<seq<string>>, s: real) returns (out: Outcome)
    modifies figure
    ensures figure.geometries == old(figure.geometries) + NodeFramesEffect(tm, nodes, frame, whitelist, s).added
    ensures out == NodeFramesEffect(tm, nodes, frame, whitelist, s).outcome
  {
    var step := NodeFrameStepper(tm, frame, whitelist, s);
    for i := 0 to |nodes|
      invariant figure.geometries == old(figure.geometries) + Sequence(nodes[..i], step).added
      invariant Sequence(nodes[..i], step).outcome == Pass
    {
      SequenceStep(nodes, i, step);
      out := AddNodeFrame(figure, tm, nodes[i], frame, whitelist, s);
      if out.Fail? {
        SequenceStopsAtFailure(nodes, step, i);
        return;
      }
    }
    assert nodes[..|nodes|] == nodes;
    out := Pass;
  }

  /** One optional object group of `show_urdf_transform_manager`. */
  method AddGroup(figure: Figure, flag: bool, objects: Option<seq<Shape>>, tm: TransformManager,
                  frame: string, c: Option<Rgb>, vertexCount: string -> nat) returns (out: Outcome)
    modifies figure
    ensures figure.geometries == old(figure.geometries) + GroupEffect(flag, objects, tm, frame, c, vertexCount).added
    ensures out == GroupEffect(flag, objects, tm, frame, c, vertexCount).outcome
  {
    out := Pass;
    if flag && objects.Some? {
      out := AddObjects(figure, tm, objects.value, frame, c, vertexCount);
    }
  }

  /** `show_urdf_transform_manager` */
  method ShowUrdfTransformManager(figure: Figure, tm: TransformManager, frame: string, vertexCount: string -> nat,
                                  collisionObjects: bool := false, visuals: bool := false,
                                  frames: bool := false, whitelist: Option<seq<string>> := None,
                                  s: real := 1.0, c: Option<Rgb> := None) returns (out: Outcome)
    modifies figure
    ensures figure.geometries == old(figure.geometries)
      + GraphEffect(tm, frame, collisionObjects, visuals, frames, whitelist, s, c, vertexCount).added
    ensures out == GraphEffect(tm, frame, collisionObjects, visuals, frames, whitelist, s, c, vertexCount).outcome
  {
    ghost var collision := GroupEffect(collisionObjects, tm.collisionObjects, tm, frame, c, vertexCount);
    ghost var visual := GroupEffect(visuals, tm.visuals, tm, frame, c, vertexCount);
    ghost var nodeFrames := if frames then NodeFramesEffect(tm, tm.nodes, frame, whitelist, s) else Nothing;
    ghost var both := Then(collision, visual);
    out := AddGroup(figure, collisionObjects, tm.collisionObjects, tm, frame, c, vertexCount);
    if out.Fail? {
      return;
    }
    out := AddGroup(figure, visuals, tm.visuals, tm, frame, c, vertexCount);
    assert figure.geometries == old(figure.geometries) + both.added && out == both.outcome;
    if out.Fail? {
      return;
    }
    out := Pass;
    if frames {
      out := AddNodeFrames(figure, tm, tm.nodes, frame, whitelist, s);
    }
  }
}
