/** The figure and the geometries added to it.

    The viewer window is represented by its scene, the list of geometries
    added so far in order, and by its camera extrinsic. A geometry is the
    record of what was handed to the renderer (points, segments and colours
    of a line set; pose and size of a coordinate frame; pose, file, scale
    and vertex colours of a mesh), not the rendered object.

    Python exceptions become `Outcome`s: an operation that raises after
    adding some geometries leaves those geometries in the figure and adds
    nothing more. `Effect` pairs the geometries an operation adds with its
    outcome, and `Then` and `Sequence` combine effects the way straight-line
    code and a `for` loop do. */
module Scene {
  import opened LinearAlgebra
  import Camera

  datatype Error =
    | NotImplemented   // NotImplementedError
    | AssertionFailed  // AssertionError from an `assert` statement
    | InvalidNumber    // ValueError: a negative number of samples for numpy.linspace
    | IndexOutOfRange  // IndexError: a key-frame index outside the pose array
    | UnknownFrame     // the transform manager cannot connect two frames

  datatype Outcome = Pass | Fail(error: Error)

  datatype Rgb = Rgb(r: real, g: real, b: real)

  /** A line segment between two point indices. */
  datatype Segment = Segment(start: int, end: int)

  datatype Geometry =
    | LineSet(points: seq<Vec3>, lines: seq<Segment>, colours: seq<Rgb>)
    | CoordinateFrame(pose: Transform, size: real)
    | TriangleMesh(pose: Transform, filename: string, scale: real, vertexColours: Option<seq<Rgb>>)

  datatype Option<T> = None | Some(value: T)

  /** The geometries an operation adds to the figure, and how it ends. */
  datatype Effect = Effect(added: seq<Geometry>, outcome: Outcome)

  const Nothing := Effect([], Pass)

  /** `first` followed by `second`; a failure in `first` skips `second`. */
  function Then(first: Effect, second: Effect): (e: Effect)
    ensures first.outcome.Fail? ==> e == first
    ensures first.outcome.Pass? ==> e.added == first.added + second.added && e.outcome == second.outcome
  {
    if first.outcome.Fail? then first else Effect(first.added + second.added, second.outcome)
  }

  /** `[x for _ in range(n)]`: n copies of x. */
  function Repeat<T>(x: T, n: nat): (r: seq<T>)
    ensures |r| == n
    ensures forall i :: 0 <= i < n ==> r[i] == x
  {
    if n == 0 then [] else [x] + Repeat(x, n - 1)
  }

  /** The effect of `for x in xs: step(x)`: the steps in order, stopping at
      the first that fails. */
  function Sequence<T>(xs: seq<T>, step: T -> Effect): Effect
  {
    if xs == [] then Nothing else Then(Sequence(xs[..|xs| - 1], step), step(xs[|xs| - 1]))
  }

  /** A loop passes exactly when every step passes. */
  lemma {:induction false} SequencePassesIff<T>(xs: seq<T>, step: T -> Effect)
    ensures Sequence(xs, step).outcome.Pass? <==> forall i :: 0 <= i < |xs| ==> step(xs[i]).outcome.Pass?
  {
    if xs != [] {
      var init := xs[..|xs| - 1];
      SequencePassesIff(init, step);
      assert forall i :: 0 <= i < |init| ==> init[i] == xs[i];
    }
  }

  /** Nothing after the first failing step has any effect. */
  lemma {:induction false} SequenceStopsAtFailure<T>(xs: seq<T>, step: T -> Effect, k: nat)
    requires k < |xs| && step(xs[k]).outcome.Fail?
    ensures Sequence(xs, step) == Sequence(xs[..k + 1], step)
    ensures Sequence(xs, step).outcome.Fail?
  {
    if k + 1 < |xs| {
      var init := xs[..|xs| - 1];
      assert init[..k + 1] == xs[..k + 1];
      SequenceStopsAtFailure(init, step, k);
    } else {
      assert xs[..k + 1] == xs;
      SequencePassesIff(xs, step);
    }
  }

  /** The loop body's view of `Sequence`: one more iteration. */
  lemma SequenceStep<T>(xs: seq<T>, i: nat, step: T -> Effect)
    requires i < |xs|
    ensures Sequence(xs[..i + 1], step) == Then(Sequence(xs[..i], step), step(xs[i]))
  {
    assert xs[..i + 1][..i] == xs[..i];
  }

  /** The viewer: the geometries added so far and the camera extrinsic. */
  class Figure {
    var geometries: seq<Geometry>
    var extrinsic: Transform

    /** A figure with an empty scene; the window itself is not modelled. */
    constructor (extrinsic: Transform)
      ensures geometries == [] && this.extrinsic == extrinsic
    {
      geometries := [];
      this.extrinsic := extrinsic;
    }

    /** Adding a geometry also lets the viewer re-fit its camera to the
        scene, so the extrinsic may change. */
    method AddGeometry(g: Geometry)
      modifies this
      ensures geometries == old(geometries) + [g]
    {
      geometries := geometries + [g];
    }

    /** Orbit the camera: `azimuth` and `elevation` are the rotations the
        rotation library builds from the two angles, `distance` the norm of
        the current extrinsic's translation. */
    method ViewInit(azimuth: Mat3, elevation: Mat3, distance: real)
      requires Camera.IsNormOf(distance, extrinsic.translation)
      modifies this`extrinsic
      ensures extrinsic == Camera.Orbit(distance, azimuth, elevation)
      ensures Camera.IsNormOf(distance, extrinsic.translation)
    {
      Camera.OrbitKeepsDistance(extrinsic, distance, azimuth, elevation);
      extrinsic := Camera.Orbit(distance, azimuth, elevation);
    }
  }

  /** A coordinate frame to be drawn at pose `A2B` with axis length `s`. */
  class Frame {
    var A2B: Transform
    var caption: Option<string>  // the frame's label
    var s: real
    /** Whether construction emitted the "labels are not supported" warning. */
    var warned: bool

    constructor (A2B: Transform, caption: Option<string> := None, s: real := 1.0)
      ensures this.A2B == A2B && this.caption == caption && this.s == s
      ensures warned <==> caption.Some?
    {
      this.A2B := A2B;
      this.caption := caption;
      this.warned := caption.Some?;
      this.s := s;
    }

    /** Re-posing a frame in place is not supported: it always fails and
        changes nothing. */
    method SetData(A2B: Transform, caption: Option<string> := None) returns (out: Outcome)
      ensures out == Fail(NotImplemented)
    {
      out := Fail(NotImplemented);
    }

    method AddFrame(figure: Figure)
      modifies figure
      ensures figure.geometries == old(figure.geometries) + [CoordinateFrame(A2B, s)]
    {
      figure.AddGeometry(CoordinateFrame(A2B, s));
    }
  }
}
