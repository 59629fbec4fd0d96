/** Trajectories: a polyline through the poses' positions plus coordinate
    frames at evenly spaced key poses. */
module Trajectories {
  import opened LinearAlgebra
  import opened Scene

  /** numpy.arange(lo, hi): the integers from lo up to, not including, hi. */
  function Range(lo: int, hi: int): (r: seq<int>)
    decreases hi - lo
    ensures |r| == if lo <= hi then hi - lo else 0
    ensures forall i :: 0 <= i < |r| ==> r[i] == lo + i
  {
    if lo >= hi then [] else [lo] + Range(lo + 1, hi)
  }

  /** Two index columns stacked side by side into segments. */
  function Pair(starts: seq<int>, ends: seq<int>): (r: seq<Segment>)
    requires |starts| == |ends|
    ensures |r| == |starts|
    ensures forall i :: 0 <= i < |r| ==> r[i] == Segment(starts[i], ends[i])
  {
    if starts == [] then [] else [Segment(starts[0], ends[0])] + Pair(starts[1..], ends[1..])
  }

  /** The translation column of every pose, in order. */
  function Translations(H: seq<Transform>): (points: seq<Vec3>)
    ensures |points| == |H|
    ensures forall i :: 0 <= i < |H| ==> points[i] == H[i].translation
  {
    if H == [] then [] else [H[0].translation] + Translations(H[1..])
  }

  /** The segments joining consecutive points among n. */
  function Lines(n: nat): seq<Segment> {
    Pair(Range(0, n - 1), Range(1, n))
  }

  /** The line set `add_trajectory` hands to the viewer. */
  function TrajectoryLineSet(H: seq<Transform>, c: Rgb): Geometry {
    var points := Translations(H);
    var lines := Lines(|points|);
    LineSet(points, lines, Repeat(c, |lines|))
  }

  /** The line set has one point per pose (its translation, in order), a
      segment from each point to the next and one colour `c` per segment. */
  lemma TrajectoryLineSetShape(H: seq<Transform>, c: Rgb)
    ensures var g := TrajectoryLineSet(H, c);
      && g.LineSet?
      && |g.points| == |H|
      && (forall i :: 0 <= i < |H| ==> g.points[i] == H[i].translation)
      && |g.lines| == (if |H| == 0 then 0 else |H| - 1)
      && (forall i :: 0 <= i < |g.lines| ==> g.lines[i] == Segment(i, i + 1))
      && (forall i :: 0 <= i < |g.lines| ==> 0 <= g.lines[i].start < g.lines[i].end < |g.points|)
      && |g.colours| == |g.lines|
      && (forall i :: 0 <= i < |g.colours| ==> g.colours[i] == c)
  {
  }

  /** Integer quotient rounded toward zero: the cast of a float to int. */
  function TruncDiv(a: int, b: int): int
    requires b > 0
  {
    if a >= 0 then a / b else -((-a) / b)
  }

  /** Sample k of `numpy.linspace(0, n - 1, num, dtype=int)`, computed
      exactly and then truncated. */
  function LinspaceIndex(n: nat, num: nat, k: nat): int
    requires k < num
  {
    if num == 1 then 0 else TruncDiv(k * (n - 1), num - 1)
  }

  /** The key-frame indices for n poses and num frames. */
  function KeyFrameIndices(n: nat, num: nat): (r: seq<int>)
    ensures |r| == num
  {
    seq(num, k requires 0 <= k < num => LinspaceIndex(n, num, k))
  }

  // Arithmetic facts about integer division by a positive number.

  lemma MulCancelLt(d: int, x: int, y: int)
    requires 0 < d && d * x < d * y
    ensures x < y
  {
  }

  lemma MulMonotone(j: int, k: int, m: int)
    requires j <= k && 0 <= m
    ensures j * m <= k * m
  {
  }

  lemma DivBounds(a: int, d: int)
    requires 0 <= a && 0 < d
    ensures d * (a / d) <= a < d * (a / d) + d
  {
  }

  lemma DivMonotone(a: int, b: int, d: int)
    requires 0 <= a <= b && 0 < d
    ensures a / d <= b / d
  {
    DivBounds(a, d);
    DivBounds(b, d);
    MulCancelLt(d, a / d, b / d + 1);
  }

  lemma DivCancel(m: int, d: int)
    requires 0 <= m && 0 < d
    ensures (d * m) / d == m
  {
    DivBounds(d * m, d);
    MulCancelLt(d, (d * m) / d, m + 1);
    MulCancelLt(d, m, (d * m) / d + 1);
  }

  /** Adding at least one divisor's worth raises the quotient. */
  lemma DivStep(a: int, m: int, d: int)
    requires 0 <= a && 0 < d <= m
    ensures a / d < (a + m) / d
  {
    DivBounds(a, d);
    DivBounds(a + m, d);
    MulCancelLt(d, a / d + 1, (a + m) / d + 1);
  }

  /** Every key-frame index is a valid pose index, the first is 0 and the
      last (with at least two frames) is n - 1. */
  lemma KeyFrameIndicesInRange(n: nat, num: nat)
    requires n >= 1
    ensures var r := KeyFrameIndices(n, num);
      && (forall k :: 0 <= k < num ==> 0 <= r[k] <= n - 1)
      && (num >= 1 ==> r[0] == 0)
      && (num >= 2 ==> r[num - 1] == n - 1)
  {
    var r := KeyFrameIndices(n, num);
    if num >= 2 {
      var d, m := num - 1, n - 1;
      forall k | 0 <= k < num
        ensures 0 <= r[k] <= m
      {
        MulMonotone(0, k, m);
        MulMonotone(k, d, m);
        DivMonotone(k * m, d * m, d);
        DivCancel(m, d);
      }
      DivCancel(m, d);
    }
  }

  /** Each index is the exact linspace value k * (n - 1) / (num - 1)
      truncated, that is rounded down, not to the nearest integer. */
  lemma KeyFrameIndicesTruncated(n: nat, num: nat)
    requires n >= 1 && num >= 2
    ensures var r := KeyFrameIndices(n, num);
      forall k :: 0 <= k < num ==> r[k] * (num - 1) <= k * (n - 1) < (r[k] + 1) * (num - 1)
  {
    var r := KeyFrameIndices(n, num);
    forall k | 0 <= k < num
      ensures r[k] * (num - 1) <= k * (n - 1) < (r[k] + 1) * (num - 1)
    {
      MulMonotone(0, k, n - 1);
      DivBounds(k * (n - 1), num - 1);
    }
  }

  /** The key-frame indices never decrease. */
  lemma KeyFrameIndicesSorted(n: nat, num: nat)
    requires n >= 1
    ensures var r := KeyFrameIndices(n, num);
      forall j, k :: 0 <= j <= k < num ==> r[j] <= r[k]
  {
    var r := KeyFrameIndices(n, num);
    if num >= 2 {
      forall j, k | 0 <= j <= k < num
        ensures r[j] <= r[k]
      {
        MulMonotone(0, j, n - 1);
        MulMonotone(j, k, n - 1);
        DivMonotone(j * (n - 1), k * (n - 1), num - 1);
      }
    }
  }

  /** With no more frames than poses, no pose gets two frames. */
  lemma KeyFrameIndicesDistinct(n: nat, num: nat)
    requires 1 <= num <= n
    ensures var r := KeyFrameIndices(n, num);
      forall k :: 0 <= k < num - 1 ==> r[k] < r[k + 1]
  {
    var r := KeyFrameIndices(n, num);
    forall k | 0 <= k < num - 1
      ensures r[k] < r[k + 1]
    {
      MulMonotone(0, k, n - 1);
      assert (k + 1) * (n - 1) == k * (n - 1) + (n - 1);
      DivStep(k * (n - 1), n - 1, num - 1);
    }
  }

  /** With more frames than poses, truncation repeats some pose. */
  lemma KeyFrameIndicesRepeat(n: nat, num: nat)
    requires 1 <= n < num
    ensures var r := KeyFrameIndices(n, num);
      exists k :: 0 <= k < num - 1 && r[k] == r[k + 1]
  {
    var r := KeyFrameIndices(n, num);
    KeyFrameIndicesInRange(n, num);
    KeyFrameIndicesSorted(n, num);
    RepeatBelowDiagonal(r, num - 1);
  }

  /** A non-decreasing sequence starting at or above 0 that falls below the
      diagonal at k has two equal neighbours before k. */
  lemma {:induction false} RepeatBelowDiagonal(r: seq<int>, k: nat)
    requires forall i, j :: 0 <= i <= j < |r| ==> r[i] <= r[j]
    requires 0 < |r| && 0 <= r[0]
    requires k < |r| && r[k] < k
    ensures exists j :: 0 <= j < k && r[j] == r[j + 1]
  {
    if r[k - 1] != r[k] {
      RepeatBelowDiagonal(r, k - 1);
    }
  }

  /** Truncation, not rounding: 4 poses and 3 frames select poses 0, 1, 3
      (the exact middle sample is 1.5). */
  lemma KeyFrameIndicesTruncate()
    ensures KeyFrameIndices(4, 3) == [0, 1, 3]
  {
  }

  /** Python indexing of the pose array, with negative indices counting from
      the end; None where Python raises IndexError. */
  function PoseAt(H: seq<Transform>, i: int): (r: Option<Transform>)
    ensures r.Some? <==> -|H| <= i < |H|
    ensures r.Some? ==> r.value in H
    ensures 0 <= i < |H| ==> r == Some(H[i])
    ensures -|H| <= i < 0 ==> r == Some(H[|H| + i])
  {
    if 0 <= i < |H| then Some(H[i])
    else if -|H| <= i < 0 then Some(H[|H| + i])
    else None
  }

  /** One iteration of the key-frame loop. */
  function KeyFrameStep(H: seq<Transform>, s: real, i: int): (e: Effect)
    ensures e.outcome.Pass? <==> PoseAt(H, i).Some?
    ensures e.outcome.Fail? ==> e == Effect([], Fail(IndexOutOfRange))
    ensures e.outcome.Pass? ==> e.added == [CoordinateFrame(PoseAt(H, i).value, s)]
  {
    match PoseAt(H, i)
    case None => Effect([], Fail(IndexOutOfRange))
    case Some(pose) => Effect([CoordinateFrame(pose, s)], Pass)
  }

  function KeyFrameStepper(H: seq<Transform>, s: real): int -> Effect {
    i => KeyFrameStep(H, s, i)
  }

  /** The whole key-frame loop over `indices`. */
  function KeyFrames(H: seq<Transform>, indices: seq<int>, s: real): Effect {
    Sequence(indices, KeyFrameStepper(H, s))
  }

  /** With valid indices the loop adds one frame of size s per index, at the
      indexed pose, in index order. */
  lemma {:induction false} KeyFramesAppended(H: seq<Transform>, indices: seq<int>, s: real)
    requires forall i :: 0 <= i < |indices| ==> 0 <= indices[i] < |H|
    ensures var e := KeyFrames(H, indices, s);
      && e.outcome == Pass
      && |e.added| == |indices|
      && forall i :: 0 <= i < |indices| ==> e.added[i] == CoordinateFrame(H[indices[i]], s)
  {
    if indices != [] {
      KeyFramesAppended(H, indices[..|indices| - 1], s);
    }
  }

  /** What `add_trajectory` adds and how it ends: the line set, then one
      frame per key-frame index; a negative frame count makes numpy raise
      after the line set is added. */
  function TrajectoryEffect(H: seq<Transform>, nFrames: int, s: real, c: Rgb): (e: Effect)
    ensures |e.added| >= 1 && e.added[0] == TrajectoryLineSet(H, c)
    ensures nFrames < 0 ==> e == Effect([TrajectoryLineSet(H, c)], Fail(InvalidNumber))
  {
    Then(Effect([TrajectoryLineSet(H, c)], Pass),
         if nFrames < 0 then Effect([], Fail(InvalidNumber))
         else KeyFrames(H, KeyFrameIndices(|H|, nFrames), s))
  }

  /** For a non-empty pose array, or no frames requested, `add_trajectory` adds exactly 1 + nFrames
      geometries: the line set, then a frame of size s at each key pose in
      index order. */
  lemma TrajectoryAppends(H: seq<Transform>, nFrames: nat, s: real, c: Rgb)
    requires |H| >= 1 || nFrames == 0
    ensures var e := TrajectoryEffect(H, nFrames, s, c);
      && e.outcome == Pass
      && |e.added| == 1 + nFrames
      && e.added[0] == TrajectoryLineSet(H, c)
      && forall k :: 0 <= k < nFrames ==>
           var i := KeyFrameIndices(|H|, nFrames)[k];
           0 <= i < |H| && e.added[1 + k] == CoordinateFrame(H[i], s)
  {
    var indices := KeyFrameIndices(|H|, nFrames);
    if |H| >= 1 {
      KeyFrameIndicesInRange(|H|, nFrames);
    }
    FramesAfterLineSet(H, indices, s, TrajectoryLineSet(H, c));
    assert TrajectoryEffect(H, nFrames, s, c)
        == Then(Effect([TrajectoryLineSet(H, c)], Pass), KeyFrames(H, indices, s));
  }

  lemma FramesAfterLineSet(H: seq<Transform>, indices: seq<int>, s: real, lineSet: Geometry)
    requires forall i :: 0 <= i < |indices| ==> 0 <= indices[i] < |H|
    ensures var e := Then(Effect([lineSet], Pass), KeyFrames(H, indices, s));
      && e.outcome == Pass
      && |e.added| == 1 + |indices|
      && e.added[0] == lineSet
      && forall k :: 0 <= k < |indices| ==> e.added[1 + k] == CoordinateFrame(H[indices[k]], s)
  {
    KeyFramesAppended(H, indices, s);
  }

  /** The failing cases: with no poses the line set is empty and indexing the
      first key pose raises; a negative frame count raises in numpy. Either
      way only the line set has been added. */
  lemma TrajectoryFailures(H: seq<Transform>, nFrames: int, s: real, c: Rgb)
    ensures nFrames < 0 ==>
      TrajectoryEffect(H, nFrames, s, c) == Effect([TrajectoryLineSet(H, c)], Fail(InvalidNumber))
    ensures |H| == 0 && nFrames >= 1 ==>
      TrajectoryEffect(H, nFrames, s, c) == Effect([LineSet([], [], [])], Fail(IndexOutOfRange))
  {
    if |H| == 0 && nFrames >= 1 {
      var indices := KeyFrameIndices(0, nFrames);
      assert indices[0] == 0;
      SequenceStopsAtFailure(indices, KeyFrameStepper(H, s), 0);
      SequenceStep(indices, 0, KeyFrameStepper(H, s));
      assert indices[..0] == [];
    }
  }

  class Trajectory {
    var H: seq<Transform>
    var showDirection: bool
    var nFrames: int
    var s: real
    var c: Rgb

    constructor (H: seq<Transform>, showDirection: bool := true, nFrames: int := 10, s: real := 1.0,
                 c: Rgb := Rgb(0.0, 0.0, 0.0))
      ensures this.H == H && this.showDirection == showDirection && this.nFrames == nFrames
      ensures this.s == s && this.c == c
    {
      this.H := H;
      this.showDirection := showDirection;
      this.nFrames := nFrames;
      this.s := s;
      this.c := c;
    }

    /** Replacing the poses in place is not supported: it always fails and
        changes nothing. */
    method SetData(H: seq<Transform>, caption: Option<string> := None) returns (out: Outcome)
      ensures out == Fail(NotImplemented)
    {
      out := Fail(NotImplemented);
    }

    method AddTrajectory(figure: Figure) returns (out: Outcome)
      modifies figure
      ensures figure.geometries == old(figure.geometries) + TrajectoryEffect(H, nFrames, s, c).added
      ensures out == TrajectoryEffect(H, nFrames, s, c).outcome
    {
      var points := Translations(H);
      var lines := Pair(Range(0, |points| - 1), Range(1, |points|));
      var colours := Repeat(c, |lines|);
      assert LineSet(points, lines, colours) == TrajectoryLineSet(H, c);
      figure.AddGeometry(LineSet(points, lines, colours));
      if nFrames < 0 {
        return Fail(InvalidNumber);
      }
      var indices := KeyFrameIndices(|H|, nFrames);
      out := AddKeyFrames(figure, H, indices, s);
      assert TrajectoryEffect(H, nFrames, s, c)
          == Then(Effect([TrajectoryLineSet(H, c)], Pass), KeyFrames(H, indices, s));
    }
  }

  /** The key-frame loop of `add_trajectory`: a frame of size s at each
      indexed pose, stopping at the first index Python rejects. */
  method AddKeyFrames(figure: Figure, H: seq<Transform>, indices: seq<int>, s: real) returns (out: Outcome)
    modifies figure
    ensures figure.geometries == old(figure.geometries) + KeyFrames(H, indices, s).added
    ensures out == KeyFrames(H, indices, s).outcome
  {
    for i := 0 to |indices|
      invariant figure.geometries == old(figure.geometries) + KeyFrames(H, indices[..i], s).added
      invariant KeyFrames(H, indices[..i], s).outcome == Pass
    {
      SequenceStep(indices, i, KeyFrameStepper(H, s));
      var pose := PoseAt(H, indices[i]);
      if pose.None? {
        SequenceStopsAtFailure(indices, KeyFrameStepper(H, s), i);
        return Fail(IndexOutOfRange);
      }
      var frame := new Frame(pose.value, s := s);
      frame.AddFrame(figure);
    }
    assert indices[..|indices|] == indices;
    out := Pass;
  }

  /** `plot_trajectory`: direction arrows are not implemented, so asking for
      them (the default) fails before anything is added. */
  method PlotTrajectory(figure: Figure, H: seq<Transform>, showDirection: bool := true, nFrames: int := 10,
                        s: real := 1.0, c: Rgb := Rgb(0.0, 0.0, 0.0))
    returns (out: Outcome)
    modifies figure
    ensures showDirection ==> out == Fail(AssertionFailed) && figure.geometries == old(figure.geometries)
    ensures !showDirection ==> out == TrajectoryEffect(H, nFrames, s, c).outcome
    ensures !showDirection ==>
      figure.geometries == old(figure.geometries) + TrajectoryEffect(H, nFrames, s, c).added
  {
    if showDirection {
      return Fail(AssertionFailed);
    }
    var trajectory := new Trajectory(H, showDirection, nFrames, s, c);
    out := trajectory.AddTrajectory(figure);
  }

  /** `plot_trajectory(figure, P)` with every default: the direction flag
      defaults to true, so the call fails and adds nothing. */
  method PlotTrajectoryWithDefaults(figure: Figure, H: seq<Transform>) returns (out: Outcome)
    modifies figure
    ensures out == Fail(AssertionFailed)
    ensures figure.geometries == old(figure.geometries)
  {
    out := PlotTrajectory(figure, H);
  }
}
