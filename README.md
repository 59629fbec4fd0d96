# Open3D viewer glue for pytransform3d, modelled in Dafny

`visualization.py` draws rigid-body data in an Open3D window. A figure collects
geometries. `plot_trajectory` adds a trajectory: a polyline through the poses'
positions plus coordinate frames at evenly spaced key poses.
`show_urdf_transform_manager` draws a kinematic graph from a URDF transform
manager. It draws the graph's collision objects and visuals (meshes only; box,
sphere and cylinder are not implemented) and a coordinate frame per node,
optionally filtered by a whitelist. `Figure.view_init` orbits the camera about
the origin from a fixed reference orientation.

The model keeps the bookkeeping that decides which geometries are added to the
figure and in what order. It leaves out the rendering itself.

- `LinearAlgebra` (linear_algebra.dfy): exact 3-vectors, 3x3 matrices and
  rigid transforms. It has the algebra of proper rotations (orthonormal,
  determinant +1): closure under products and transposes.
- `Camera` (camera.dfy): the reference world-to-camera matrix of `view_init`,
  which is proved to be a proper rotation. Also the extrinsic an orbit request
  writes and its properties: it is rigid, keeps the distance, is idempotent,
  and its translation is independent of the angles.
- `Scene` (scene.dfy): the figure as a class holding its list of geometries
  and its extrinsic, and the `Frame` class. Python exceptions become an
  `Outcome`. `Effect` pairs the geometries an operation adds with its outcome.
  `Then` and `Sequence` compose effects the way straight-line code and a
  `for` loop do: a raised exception stops everything after it, while
  geometries already added stay in the figure.
- `Trajectories` (trajectories.dfy): the line set (points, segments,
  colours), the key-frame indices of
  `numpy.linspace(0, N - 1, n_frames, dtype=int)`, the key-frame loop, the
  `Trajectory` class and `plot_trajectory`.
- `UrdfView` (urdf_view.dfy): the per-shape `show` dispatch (a `match`
  replaces the monkey-patched methods), `_add_objects`, `_add_frame`, the
  whitelist filter and `show_urdf_transform_manager`.

Each state-changing method is proved against a pure function of its inputs. The
method appends exactly that function's geometries to the figure and returns
its outcome. The lemmas state what those functions promise.

## Behaviour followed from the code

- Key-frame indices come from a cast to int, which truncates. They are not
  rounded to the nearest index: 4 poses and 3 frames select poses 0, 1 and 3
  (`Trajectories.KeyFrameIndicesTruncate`).
- No minimum number of poses or frames is enforced. With `n_frames = 0` only
  the line set is added. With no poses, the line set is added empty, and then
  indexing the first key pose raises IndexError. A negative `n_frames` makes
  `numpy.linspace` raise ValueError after the line set has been added.
- `show_direction=True`, the default, fails through an `assert` statement
  (AssertionError), not through NotImplementedError.
- A mesh without a path is skipped without error. Any other shape kind raises,
  and the exception aborts the rest of `show_urdf_transform_manager`.

## Model

| member | source | states |
|---|---|---|
| LinearAlgebra.RotationsCompose | visualization.py:51-53 | the transpose of a product of three proper rotations (azimuth, elevation, reference camera-to-world) is a proper rotation |
| LinearAlgebra.RotationProduct | visualization.py:51 | a product of two proper rotations is a proper rotation |
| LinearAlgebra.RotationTranspose | visualization.py:47 | the transpose of a proper rotation is a proper rotation, so transposing inverts it |
| LinearAlgebra.DetOfProduct | visualization.py:51 | det(a.b) = det(a) det(b) |
| LinearAlgebra.MulAssociative | visualization.py:51 | the chained `.dot` products do not depend on grouping |
| Camera.AtRestIsProperRotation | visualization.py:43-47 | the reference matrix [[0,1,0],[0,0,-1],[-1,0,0]] times its transpose is the identity on both sides and its determinant is +1, so its transpose is its inverse |
| Camera.CameraToWorldAtRestIsRotation | visualization.py:47 | the reference camera-to-world matrix (the transpose) is a proper rotation |
| Camera.AtRestAxes | visualization.py:43-47 | at rest the camera x axis is world +y, camera y is world -z and the viewing direction is world -x |
| Camera.CameraToWorldAtRest | visualization.py:47 | the reference camera-to-world matrix is the transpose of the literal world-to-camera matrix of lines 43-46 |
| Camera.IsNormOf | visualization.py:42 | `distance` is the Euclidean norm of the translation: non-negative with square equal to the squared norm |
| Camera.Orbit | visualization.py:51-54 | the new extrinsic's translation is (0, 0, distance) |
| Camera.OrbitAtZeroAngles | visualization.py:47-54 | with identity angle rotations the new extrinsic's rotation is the reference world-to-camera matrix |
| Camera.OrbitIsRigid | visualization.py:49-54 | if the azimuth and elevation rotations are proper rotations, so is the new extrinsic's rotation |
| Camera.OrbitKeepsDistance | visualization.py:42-54 | the new translation has the same length as the old one |
| Camera.NormUnique | visualization.py:42 | the distance, a non-negative square root of the squared norm, is unique |
| Camera.OrbitIdempotent | visualization.py:42-55 | repeating an orbit request on the extrinsic it produced yields that extrinsic again |
| Camera.OrbitTranslationIgnoresAngles | visualization.py:52-54 | the new translation is the same for any azimuth and elevation |
| Scene.Then | visualization.py:114-122 | straight-line code: if the first part raises, the second adds nothing and the exception propagates; otherwise the geometries of both, in order, and the second's outcome |
| Scene.Sequence | visualization.py:106-108 | a `for` loop whose body may raise: the bodies' geometries in order up to and including the first that raises |
| Scene.SequencePassesIff | visualization.py:126-127 | a loop of possibly-raising steps completes exactly when every step completes |
| Scene.SequenceStopsAtFailure | visualization.py:126-127 | after the first step that raises, later steps add nothing and the loop raises |
| Scene.Figure.constructor | visualization.py:28-30 | a new figure has an empty scene |
| Scene.Figure.AddGeometry | visualization.py:32-33 | the geometry is appended and the earlier ones are unchanged; the viewer may re-fit its camera, so the extrinsic is not promised to stay |
| Scene.Figure.ViewInit | visualization.py:39-55 | the extrinsic becomes the orbit extrinsic for the given rotations at the current distance, and that distance is kept |
| Scene.Frame.constructor | visualization.py:63-70 | stores pose, label (default none) and size (default 1.0), and warns exactly when a label is given |
| Scene.Frame.SetData | visualization.py:72-73 | always raises NotImplementedError and changes nothing |
| Scene.Frame.AddFrame | visualization.py:75-79 | appends one coordinate frame with the frame's pose and size |
| Trajectories.Range | visualization.py:95-96 | `arange(lo, hi)` has max(hi - lo, 0) elements and element i is lo + i |
| Trajectories.Pair | visualization.py:95-96 | stacking two index columns gives segment i = (starts[i], ends[i]) |
| Scene.Repeat | visualization.py:100 | n copies of the value: the colour list of a line set, and the vertex colours of a mesh (lines 170-172) |
| Trajectories.Translations | visualization.py:94 | one point per pose, the pose's translation, in order |
| Trajectories.Lines | visualization.py:95-96 | the segments joining consecutive points among n |
| Trajectories.TrajectoryLineSet | visualization.py:94-101 | the line set handed to the viewer: translations as points, consecutive segments, one colour c per segment |
| Trajectories.TrajectoryLineSetShape | visualization.py:94-101 | N points equal to the translations in order; N-1 segments (none for no poses), segment i = (i, i+1), each indexing valid points; one colour c per segment |
| Trajectories.TruncDiv | visualization.py:105 | the cast of a quotient to int, rounding toward zero (NumPy before 1.20; the later floor is under Left out) |
| Trajectories.LinspaceIndex | visualization.py:104-105 | sample k of `linspace(0, N-1, num)` cast to int: 0 for a single sample, otherwise k(N-1)/(num-1) truncated |
| Trajectories.KeyFrameIndices | visualization.py:104-105 | exactly n_frames indices |
| Trajectories.KeyFrameIndicesInRange | visualization.py:104-105 | for N >= 1 every index is in [0, N-1], the first is 0 and with two or more frames the last is N-1 |
| Trajectories.KeyFrameIndicesTruncated | visualization.py:104-105 | for N >= 1 and two or more frames, index k is k(N-1)/(n_frames-1) rounded down |
| Trajectories.KeyFrameIndicesSorted | visualization.py:104-105 | for N >= 1 the indices never decrease |
| Trajectories.KeyFrameIndicesDistinct | visualization.py:104-105 | with 1 <= n_frames <= N the indices strictly increase |
| Trajectories.KeyFrameIndicesRepeat | visualization.py:104-105 | with n_frames > N some pose is selected twice in a row |
| Trajectories.KeyFrameIndicesTruncate | visualization.py:104-105 | 4 poses, 3 frames select [0, 1, 3] (truncation, not rounding) |
| Trajectories.PoseAt | visualization.py:107 | Python indexing of the pose array: defined exactly for -N <= i < N, negative indices count from the end, the result is always one of the poses, and IndexError otherwise |
| Trajectories.KeyFrameStep | visualization.py:106-108 | one loop iteration: completes exactly when the index is valid and then adds one frame of size s at that pose; otherwise raises IndexError and adds nothing |
| Trajectories.KeyFrames | visualization.py:106-108 | the key-frame loop over the given indices |
| Trajectories.KeyFramesAppended | visualization.py:106-108 | with valid indices the loop completes and adds one frame of size s at H[idx] per index, in order |
| Trajectories.TrajectoryEffect | visualization.py:93-108 | what add_trajectory adds and how it ends: the line set always comes first, and a negative n_frames raises ValueError with only the line set added |
| Trajectories.TrajectoryAppends | visualization.py:102-108 | for N >= 1, or for any N with n_frames = 0, add_trajectory completes and adds exactly 1 + n_frames geometries: the line set, then a frame at H[idx] of size s per key index in order |
| Trajectories.TrajectoryFailures | visualization.py:94-108 | a negative n_frames raises ValueError after only the line set; no poses and n_frames >= 1 raises IndexError after only the empty line set |
| Trajectories.Trajectory.constructor | visualization.py:83-88 | stores poses, direction flag, frame count, size and colour, with the source's defaults (true, 10, 1.0, black) |
| Trajectories.Trajectory.SetData | visualization.py:90-91 | always raises NotImplementedError and changes nothing |
| Trajectories.Trajectory.AddTrajectory | visualization.py:93-108 | appends exactly the trajectory's geometries to the figure and returns its outcome |
| Trajectories.AddKeyFrames | visualization.py:106-108 | the loop appends exactly the key-frame geometries and stops at the first index Python rejects |
| Trajectories.PlotTrajectory | visualization.py:20-24 | with show_direction set (the default) it raises AssertionError and adds nothing; otherwise it behaves as add_trajectory; defaults n_frames 10, s 1.0, black |
| Trajectories.PlotTrajectoryWithDefaults | visualization.py:20-22 | a call that leaves every optional argument out raises AssertionError and adds nothing |
| UrdfView.ShapeEffect | visualization.py:138-174 | box, sphere and cylinder raise NotImplementedError and add nothing; a mesh without a path adds nothing; an unknown frame raises; otherwise one mesh is added at get_transform(mesh frame, frame) with the file and scale, and its vertex colours are absent without c and one entry c per vertex with c |
| UrdfView.ObjectsEffect | visualization.py:125-127 | `show` for every object in order, stopping at the first that raises |
| UrdfView.ObjectsPassIff | visualization.py:125-156 | drawing a list of objects completes exactly when every object is a mesh whose pose (if it has a path) resolves; nothing after the first box, sphere or cylinder is drawn |
| UrdfView.Listed | visualization.py:131 | a node is drawn when there is no whitelist or the whitelist contains it |
| UrdfView.NodeFrameEffect | visualization.py:130-135 | an unlisted node adds nothing; a listed node completes exactly when its transform resolves, adding one frame of size s at that pose, and otherwise raises |
| UrdfView.NodeFramesEffect | visualization.py:121-122 | `_add_frame` for every node in order, stopping at the first that raises |
| UrdfView.Selected | visualization.py:121-132 | the nodes that pass the whitelist, in node order: never more than the nodes, every one listed |
| UrdfView.SelectedIsFilter | visualization.py:130-132 | a node is selected exactly when it is a node and the whitelist is None or contains it, each selected node as often as it occurs among the nodes; without a whitelist every node is selected |
| UrdfView.NodeFramesFollowWhitelist | visualization.py:120-135 | when every selected node resolves, the frame loop completes and adds one frame of size s per selected node, in node order, posed by get_transform(node, frame) |
| UrdfView.GroupEffect | visualization.py:114-119 | an object group: its objects' effect when the flag is set and the attribute exists, nothing otherwise |
| UrdfView.GraphEffect | visualization.py:111-122 | collision objects, then visuals, then node frames, each group only when switched on, a raising group ending the call |
| UrdfView.GraphGroupsInOrder | visualization.py:114-122 | groups come in the order collision objects, visuals, frames; a group adds nothing unless its flag is set and the attribute exists; a raising group stops the later ones |
| UrdfView.FramesOnlyGraph | visualization.py:111-122 | with only `frames` set, the call adds exactly one frame per whitelisted node in node order and nothing else |
| UrdfView.Show | visualization.py:138-174 | appends exactly the shape's geometries and returns its outcome |
| UrdfView.AddObjects | visualization.py:125-127 | appends exactly the objects' geometries in order and stops at the first that raises |
| UrdfView.AddNodeFrame | visualization.py:130-135 | skips a node outside the whitelist, otherwise appends its frame or raises for an unknown frame |
| UrdfView.AddNodeFrames | visualization.py:120-122 | the node loop appends exactly the node frames in node order and stops at the first that raises |
| UrdfView.AddGroup | visualization.py:114-119 | an object group is drawn only when its flag is set and the attribute exists |
| UrdfView.ShowUrdfTransformManager | visualization.py:111-122 | appends exactly the graph's geometries (collision objects, visuals, frames) and returns its outcome; every option defaults as in the source (all groups off, no whitelist, s 1.0, no colour) |

## Left out

- The Open3D window and render lifecycle (`Figure.__init__` beyond the empty scene, `show`, `set_line_width`) is a UI event loop and is not modelled.
- `figure()` and `plot_basis` are not modelled. Building a transform from R and p is a foreign pytransform3d call.
- `plot_trajectory`'s conversion `matrices_from_pos_quat` is a foreign floating-point call. `PlotTrajectory` takes the pose matrices directly.
- Scene.Figure.ViewInit: `active_matrix_from_angle`, `deg2rad` and `numpy.linalg.norm` are floating-point library calls. The two angle rotations and the distance are parameters; the distance is required to be the norm of the current translation.
- Trajectories.PlotTrajectory: the direction check is an `assert` statement, which Python drops when run with `-O`. The trajectory is then drawn even with show_direction set. The model promises the AssertionError of a normal run.
- Scene.Figure.AddGeometry: Open3D's `add_geometry` re-fits the view to the scene by default, which moves the camera. The model does not compute the new extrinsic: `AddGeometry` may change the whole figure, and only the geometry list is specified.
- Trajectories.KeyFrameIndices: idealises the floating-point `linspace` as exact division followed by truncation. Rounding error in k * step near an integer is not modelled. `TruncDiv` rounds toward zero, as the float-to-int cast of NumPy before 1.20 does. NumPy 1.20 to 1.23 instead floor integer-dtype `linspace` samples before the cast. Floor and truncation agree on the non-negative samples that arise for N >= 1. With no poses the first sample is 0 either way, and indexing it already raises.
- `np.int` no longer exists in NumPy 1.24 and later, where `add_trajectory` raises AttributeError before the key-frame loop. The model assumes a NumPy that still has it.
- UrdfView.ShapeEffect: mesh file reading, vertex scaling and `mesh.transform` are Open3D file I/O and float geometry. The mesh record keeps the pose, file name and scale, and `vertexCount` gives the number of vertices the file holds.
- The coordinate-frame triangle mesh and its transform by the pose are Open3D geometry. A frame is recorded by its pose and size.
- The label warning is modelled as the `warned` flag on a frame. The "No mesh path given" print is not modelled.
- The transform manager's node list, attributes and `get_transform` are parameters. An unresolvable pair of frames is an UnknownFrame failure.
- Box, sphere and cylinder carry no fields, because their `show` raises before reading any.
- The 4x4 homogeneous matrices are represented by their rotation block and translation column.
