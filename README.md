# Fingertip pressure rectangle visualizer, modelled in Dafny

The `pressureVisualizer` node of `fingertip_pressure` caches two kinds of
message and renders them on a timer:

- a `PressureInfo` message gives the geometry of the two fingertip sensors:
  a frame id, and per cell a center and two half-side vectors;
- a `PressureState` message gives the latest pressure reading of every cell
  of the left and right fingertips, with a time stamp;
- `publish` runs only when both a geometry message and a new reading have
  arrived. It clears the "new reading" flag and publishes one line-strip
  marker per cell: cells 0..21 of tip 0 coloured from the left readings,
  then cells 0..21 of tip 1 coloured from the right readings.

Each cell's outline is the four corners `h1+h2, h1-h2, -h1-h2, -h1+h2`
around the cell center, closed by repeating the first point. Its colour is
the colour map at `reading / 6000`, fully opaque.

The project has four modules:

- `Messages` (Messages.dfy): the message types, as plain values with only
  the fields the node touches.
- `Outline` (Outline.dfy): the corner arithmetic over `real` vectors, its
  inverse, the colour of a reading, and one cell's marker value.
- `Visualizer` (Visualizer.dfy): the node as a class `PressureVisualizer`.
  Its fields are the ones the Python object mutates (`frame`, `center`,
  `hside1`, `hside2`, `lFingerTip`, `rFingerTip`, `dataTimestamp`,
  `gotInfo`, `dataReady`) plus `locked` for the lock. Each method is proved
  against a function on the value `Cache` of those fields (`InfoSpec`,
  `CallbackSpec`, `PublishSpec`, `RenderTip`). The lemmas about the node are
  stated over those functions.
- `Driver` (Driver.dfy): the node as a sequence of atomic events
  (`Run`), with the properties that span several calls, and one pass of
  the main loop over the two visualizers (`Tick`).

Error paths follow the code:

- A missing list entry raises `IndexError` (outcome `Raised`). This happens
  when a geometry message has fewer than two sensors, or when readings or
  geometry have fewer than 22 cells. The state is left as the code leaves
  it at that point: lists partly rebuilt, markers before the failing cell
  already published, `dataready` already cleared.
- None of the critical sections releases the lock on an exception. The model
  therefore keeps `locked` true after a raise. Any later call that would
  acquire the lock waits forever; the model reports it as `Blocked` and it
  changes nothing (`LockedStaysSilent`).
- The code does not compare the reading length with the geometry length.
  A short array is not skipped: rendering stops with `IndexError` at the
  first missing cell, and the model does the same.

## Model

| member | source | states |
|---|---|---|
| `Visualizer.PressureVisualizer.constructor` | fingertip_pressure/scripts/rectangle_viz.py:127-130 | a new node has both flags down, the lock free and empty caches |
| `Visualizer.PressureVisualizer.InfoCallback` | fingertip_pressure/scripts/rectangle_viz.py:57-69 | rebuilds the four geometry lists by appending sensors 0 and 1 and sets gotInfo; with fewer than two sensors it raises, keeping the lock and the partial lists; waits forever if the lock is held |
| `Visualizer.PressureVisualizer.Callback` | fingertip_pressure/scripts/rectangle_viz.py:72-79 | replaces both reading arrays and the stamp and sets dataReady, nothing else |
| `Visualizer.PressureVisualizer.Publish` | fingertip_pressure/scripts/rectangle_viz.py:81-88 | new state, published markers and outcome are those of PublishSpec: gated on both flags, clears dataReady, renders tip 0 from the left readings and then tip 1 from the right |
| `Visualizer.PressureVisualizer.MakeVisualization` | fingertip_pressure/scripts/rectangle_viz.py:90-125 | the reused marker, snapshotted at each publish, yields exactly the cell markers 0 .. n-1, where n is the number of cells present; it raises exactly when n < 22 |
| `Visualizer.PressureVisualizer.SetCorners` | fingertip_pressure/scripts/rectangle_viz.py:109-121 | the twelve coordinate writes plus the aliasing of point 4 to point 0 leave the outline Corners(h1, h2) |
| `Visualizer.CellsAvailable` | fingertip_pressure/scripts/rectangle_viz.py:90-123 | the number of cells rendered is the largest k ≤ 22 for which cells 0 .. k-1 exist in frame, center, both half-side lists and the readings |
| `Visualizer.StopsAt` | fingertip_pressure/scripts/rectangle_viz.py:102-123 | rendering stops with an IndexError at the first missing cell, having published the cells before it |
| `Visualizer.RenderIgnoresFlags` | fingertip_pressure/scripts/rectangle_viz.py:90-125 | the rendered markers depend only on the cached geometry, stamp and readings, not on the flags or the lock |
| `Visualizer.TipMarkersGrow` | fingertip_pressure/scripts/rectangle_viz.py:102-125 | each loop iteration appends exactly the marker of the current cell |
| `Visualizer.TipMarkerAt` | fingertip_pressure/scripts/rectangle_viz.py:102-125 | the k-th marker of a tip is the marker of cell k |
| `Visualizer.ExtendLists` | fingertip_pressure/scripts/rectangle_viz.py:63-67 | appending one sensor extends each geometry list by that sensor's entry |
| `Visualizer.PublishWaitsForBothFlags` | fingertip_pressure/scripts/rectangle_viz.py:81-88 | without both flags publish changes nothing and emits nothing; it emits only when both flags are set and the lock is free |
| `Visualizer.PublishIsSingleShot` | fingertip_pressure/scripts/rectangle_viz.py:82-85 | a firing publish clears dataReady and keeps gotInfo and the caches; a second publish right after it emits nothing and changes nothing |
| `Visualizer.PublishEmits` | fingertip_pressure/scripts/rectangle_viz.py:81-88 | a firing publish emits tip 0's markers from the left readings, then (unless tip 0 raised) tip 1's from the right; it completes iff both tips have all 22 cells |
| `Visualizer.PublishCount` | fingertip_pressure/scripts/rectangle_viz.py:86-102 | a firing publish emits at most 44 markers, exactly 44 when it completes |
| `Visualizer.PublishedLeftAt` | fingertip_pressure/scripts/rectangle_viz.py:86-108 | marker k (k < 22) of a firing publish is cell k of tip 0 coloured from l_finger_tip |
| `Visualizer.PublishedRightAt` | fingertip_pressure/scripts/rectangle_viz.py:86-108 | marker 22 + k of a firing publish is cell k of tip 1 coloured from r_finger_tip |
| `Visualizer.MarkerFields` | fingertip_pressure/scripts/rectangle_viz.py:92-123 | each marker has frame_id = frame[tip], ns = frame + "/line", the data stamp, id = cell, LINE_STRIP and ADD, position = center, orientation w = 1, scale.x = 0.001, the corner outline, alpha 1 and rgb = color(data[i] / 6000) |
| `Visualizer.CallbackLastWriterWins` | fingertip_pressure/scripts/rectangle_viz.py:72-79 | callback sets readings, stamp and dataReady and leaves geometry and gotInfo alone; of two callbacks the later one wins |
| `Visualizer.InfoCallbackReplacesGeometry` | fingertip_pressure/scripts/rectangle_viz.py:57-69 | with two sensors the lists become exactly [sensor 0, sensor 1] entries and gotInfo is set; with fewer it raises holding the lock, gotInfo unchanged; readings and dataReady untouched either way |
| `Visualizer.InfoCallbackLastWriterWins` | fingertip_pressure/scripts/rectangle_viz.py:57-69 | of two complete geometry messages, the later one wins |
| `Visualizer.OperationsKeepWellFormed` | fingertip_pressure/scripts/rectangle_viz.py:57-88 | every operation keeps the four geometry lists the same length, and a node with its geometry and a free lock holds both fingertips |
| `Visualizer.FramesPresentWhenFiring` | fingertip_pressure/scripts/rectangle_viz.py:82-92 | in a well-formed cache the frame lookup of a firing publish cannot fail |
| `Outline.Corners` | fingertip_pressure/scripts/rectangle_viz.py:107-121 | five points, the fifth equal to the first, points 2 and 3 the negations of points 0 and 1, edges 2·h2 and 2·h1, centred on the cell center |
| `Outline.HalfSides` | fingertip_pressure/scripts/rectangle_viz.py:107-121 | every closed, centred outline is Corners of the half-sides recovered from its first two points |
| `Outline.HalfSidesOfCorners` | fingertip_pressure/scripts/rectangle_viz.py:107-121 | the half-sides are recovered exactly from the corners, so distinct cells give distinct outlines |
| `Outline.ExampleCell` | fingertip_pressure/scripts/rectangle_viz.py:107-123 | unit half-sides along x and y give the square (±1, ±1, 0); a reading of 3000 gives color(0.5) with alpha 1 |
| `Driver.SilentWithoutData` | fingertip_pressure/scripts/rectangle_viz.py:72-85 | with dataReady down, no run without a reading message publishes anything |
| `Driver.SilentWithoutInfo` | fingertip_pressure/scripts/rectangle_viz.py:57-85 | with gotInfo down, no run without a complete geometry message publishes anything |
| `Driver.NoMarkersBeforeBothUpdates` | fingertip_pressure/scripts/rectangle_viz.py:57-129 | from a new node, any run that publishes a marker contains a reading message and a complete geometry message |
| `Driver.StepBudget` | fingertip_pressure/scripts/rectangle_viz.py:72-88 | one step publishes at most the 44 markers of a pending reading, and only a reading message makes a new one pending |
| `Driver.OneRenderPerReading` | fingertip_pressure/scripts/rectangle_viz.py:72-88 | over any run, markers published plus those still pending are at most 44 per reading message plus 44 for one already pending |
| `Driver.AtMostOneRenderPerReading` | fingertip_pressure/scripts/rectangle_viz.py:72-129 | from a new node, a run publishes at most 44 markers per reading message |
| `Driver.LockedStaysSilent` | fingertip_pressure/scripts/rectangle_viz.py:57-88 | once a raise has left the lock held, no event changes the node or publishes anything |
| `Driver.RunKeepsWellFormed` | fingertip_pressure/scripts/rectangle_viz.py:57-88 | every run keeps the geometry lists the same length |
| `Driver.Tick` | fingertip_pressure/scripts/rectangle_viz.py:146-149 | one loop pass publishes the first visualizer and, only if that returned normally, the second; each renders only from its own cache |

## Left out

- ROS wiring: the `rospy.Publisher` and the two `Subscriber`s made in `__init__` are not modelled. `vis_pub.publish` becomes the sequence of marker values a call returns.
- The topic name passed to the constructor only names subscriptions, so the constructor takes no argument.
- The `__main__` driver (`init_node`, the sleeps, the shutdown test) is timing and process control. `Driver.Tick` models one pass of its loop body.
- Threads: every callback and every publish is one atomic step. The flags are read before the lock is taken; the model still treats the whole of `publish` as one step. `Blocked` stands for a call that never returns.
- Exception propagation: rospy logs an exception raised in a callback thread, while one raised in the main loop ends the process. `Driver.Run` goes on after either. Because the lock stays held, nothing is published afterwards in either case.
- `fingertip_pressure.colormap.color` is not part of this model. It is a parameter of type `real -> (real, real, real)`.
- Floating point: coordinates and the `/ 6000.` division use exact `real` arithmetic. Readings are unbounded integers; the `int16` range is not enforced.
- Before the first geometry or reading message, the Python object does not have the cache attributes at all. The model starts them empty. The difference is never visible, because `publish` is gated on both flags.
- Marker fields the node never sets (lifetime, header sequence number, text and others) are not part of the marker value. Each published marker is the value the reused marker holds at that moment. Updates made in place and the list aliasing between iterations are therefore not represented.
