/** The pressureVisualizer node: a cache of the latest fingertip geometry and
    the latest pressure readings, two readiness flags, and a render step that
    publishes one line-strip marker per cell of both fingertips.

    The lock is a boolean: each operation takes it on entry and gives it back
    on a normal exit. Nothing releases it when an index lookup fails inside
    the critical section, so after such a failure every later acquire waits
    forever; the model reports such a call as Blocked and lets it change
    nothing. */
module Visualizer {
  import opened Messages
  import opened Outline

  /** Cells drawn per fingertip. */
  const CellsPerTip: nat := 22

  /** How a call ends: normally, with an IndexError, or waiting forever on the lock. */
  datatype Outcome = Completed | Raised | Blocked

  /** The node's fields as one value. */
  datatype Cache = Cache(
    frame: seq<string>,
    center: seq<seq<Vector3>>,
    hside1: seq<seq<Vector3>>,
    hside2: seq<seq<Vector3>>,
    lFingerTip: seq<int>,
    rFingerTip: seq<int>,
    dataTimestamp: Time,
    gotInfo: bool,
    dataReady: bool,
    locked: bool)

  /** What one call leaves behind: the new cache, the markers it published in order, how it ended. */
  datatype Effect = Effect(after: Cache, emitted: seq<Marker>, outcome: Outcome)

  /** What one makeVisualization call publishes and how it ends. */
  datatype Render = Render(markers: seq<Marker>, outcome: Outcome)

  /** The state right after construction: both flags down, lock free, nothing cached. */
  const Initial := Cache([], [], [], [], [], [], Time(0, 0), false, false, false)

  /** The geometry lists are built side by side, one entry per fingertip, and
      a usable cache holds both fingertips. */
  predicate WellFormed(c: Cache) {
    && |c.center| == |c.frame|
    && |c.hside1| == |c.frame|
    && |c.hside2| == |c.frame|
    && |c.frame| <= 2
    && (c.gotInfo && !c.locked ==> |c.frame| == 2)
  }

  function Min(a: int, b: int): int {
    if a <= b then a else b
  }

  /** Cells 0 .. k-1 of `tip` can be looked up in the cached geometry and in `data`. */
  predicate Covers(c: Cache, tip: nat, data: seq<int>, k: nat) {
    && tip < |c.frame|
    && tip < |c.center|
    && tip < |c.hside1|
    && tip < |c.hside2|
    && k <= |c.center[tip]|
    && k <= |c.hside1[tip]|
    && k <= |c.hside2[tip]|
    && k <= |data|
  }

  /** How many cells of `tip` are published before a lookup fails: the
      largest k up to 22 with cells 0 .. k-1 all present. */
  function CellsAvailable(c: Cache, tip: nat, data: seq<int>): (n: nat)
    ensures n <= CellsPerTip
    ensures n > 0 ==> Covers(c, tip, data, n)
    ensures n < CellsPerTip ==> !Covers(c, tip, data, n + 1)
  {
    if tip < |c.frame| && tip < |c.center| && tip < |c.hside1| && tip < |c.hside2| then
      Min(Min(Min(Min(CellsPerTip, |c.center[tip]|), |c.hside1[tip]|), |c.hside2[tip]|), |data|)
    else
      0
  }

  /** Rendering reads only the geometry, the stamp and the readings, never the flags or the lock. */
  lemma RenderIgnoresFlags(c: Cache, d: Cache, tip: nat, data: seq<int>, colormap: Colormap)
    requires d == c.(dataReady := d.dataReady, gotInfo := d.gotInfo, locked := d.locked)
    ensures RenderTip(d, tip, data, colormap) == RenderTip(c, tip, data, colormap)
  {
    var n := CellsAvailable(c, tip, data);
    assert CellsAvailable(d, tip, data) == n;
    var mine, theirs := TipMarkers(d, tip, data, colormap), TipMarkers(c, tip, data, colormap);
    assert |mine| == |theirs| == n;
    forall i | 0 <= i < n
      ensures mine[i] == theirs[i]
    {
    }
  }

  /** Rendering stops with an IndexError at the first cell that is missing. */
  lemma StopsAt(c: Cache, tip: nat, data: seq<int>, colormap: Colormap, i: nat)
    requires i <= CellsAvailable(c, tip, data) && i < CellsPerTip
    requires !Covers(c, tip, data, i + 1)
    ensures RenderTip(c, tip, data, colormap) == Render(TipMarkers(c, tip, data, colormap)[..i], Raised)
  {
  }

  /** The marker for cell i of `tip`, coloured from `data`. */
  function CellOf(c: Cache, tip: nat, data: seq<int>, i: nat, colormap: Colormap): Marker
    requires Covers(c, tip, data, i + 1)
  {
    CellMarker(c.frame[tip], c.dataTimestamp, i, c.center[tip][i],
               c.hside1[tip][i], c.hside2[tip][i], data[i], colormap)
  }

  /** The markers makeVisualization publishes for `tip`, in order. */
  function TipMarkers(c: Cache, tip: nat, data: seq<int>, colormap: Colormap): seq<Marker> {
    var n := CellsAvailable(c, tip, data);
    seq(n, i requires 0 <= i < n => CellOf(c, tip, data, i, colormap))
  }

  /** makeVisualization(data, tip) as a value: it fails exactly when fewer than 22 cells are available. */
  function RenderTip(c: Cache, tip: nat, data: seq<int>, colormap: Colormap): Render {
    Render(TipMarkers(c, tip, data, colormap),
           if CellsAvailable(c, tip, data) == CellsPerTip then Completed else Raised)
  }

  function FrameIds(s: seq<PressureInfoElement>): seq<string> {
    seq(|s|, i requires 0 <= i < |s| => s[i].frameId)
  }

  function Centers(s: seq<PressureInfoElement>): seq<seq<Vector3>> {
    seq(|s|, i requires 0 <= i < |s| => s[i].center)
  }

  function HalfSides1(s: seq<PressureInfoElement>): seq<seq<Vector3>> {
    seq(|s|, i requires 0 <= i < |s| => s[i].halfside1)
  }

  function HalfSides2(s: seq<PressureInfoElement>): seq<seq<Vector3>> {
    seq(|s|, i requires 0 <= i < |s| => s[i].halfside2)
  }

  /** Appending one sensor extends each of the four lists by its entry. */
  lemma ExtendLists(s: seq<PressureInfoElement>, i: nat)
    requires i < |s|
    ensures FrameIds(s[..i + 1]) == FrameIds(s[..i]) + [s[i].frameId]
    ensures Centers(s[..i + 1]) == Centers(s[..i]) + [s[i].center]
    ensures HalfSides1(s[..i + 1]) == HalfSides1(s[..i]) + [s[i].halfside1]
    ensures HalfSides2(s[..i + 1]) == HalfSides2(s[..i]) + [s[i].halfside2]
  {
  }

  /** info_callback as a value. The four lists are emptied and rebuilt from
      sensors 0 and 1; with fewer than two sensors the lookup of the missing
      one fails, leaving the lists partly rebuilt and the lock held. */
  function InfoSpec(c: Cache, info: PressureInfo): Effect {
    if c.locked then Effect(c, [], Blocked)
    else
      var got := info.sensor[..Min(2, |info.sensor|)];
      var ok := 2 <= |info.sensor|;
      Effect(c.(frame := FrameIds(got), center := Centers(got),
                hside1 := HalfSides1(got), hside2 := HalfSides2(got),
                gotInfo := ok || c.gotInfo, locked := !ok),
             [], if ok then Completed else Raised)
  }

  /** callback as a value: both reading arrays and the stamp are replaced. */
  function CallbackSpec(c: Cache, msg: PressureState): Effect {
    if c.locked then Effect(c, [], Blocked)
    else
      Effect(c.(lFingerTip := msg.lFingerTip, rFingerTip := msg.rFingerTip,
                dataTimestamp := msg.stamp, dataReady := true),
             [], Completed)
  }

  /** publish as a value. The flags are tested before the lock is taken; a
      firing call clears dataReady, then renders the left readings on tip 0
      and the right readings on tip 1, stopping at the first failed lookup. */
  function PublishSpec(c: Cache, colormap: Colormap): Effect {
    if !(c.dataReady && c.gotInfo) then Effect(c, [], Completed)
    else if c.locked then Effect(c, [], Blocked)
    else
      var busy := c.(locked := true, dataReady := false);
      var left := RenderTip(busy, 0, busy.lFingerTip, colormap);
      if left.outcome == Raised then Effect(busy, left.markers, Raised)
      else
        var right := RenderTip(busy, 1, busy.rFingerTip, colormap);
        Effect(busy.(locked := right.outcome == Raised), left.markers + right.markers, right.outcome)
  }

  /** Without both flags publish changes nothing, and it emits only when
      both flags are set and the lock is free. */
  lemma PublishWaitsForBothFlags(c: Cache, colormap: Colormap)
    ensures !(c.dataReady && c.gotInfo) ==> PublishSpec(c, colormap) == Effect(c, [], Completed)
    ensures PublishSpec(c, colormap).emitted != [] ==> c.dataReady && c.gotInfo && !c.locked
  {
  }

  /** A firing publish clears dataReady and keeps gotInfo and both caches; a
      second publish right after it emits nothing and changes nothing. */
  lemma PublishIsSingleShot(c: Cache, colormap: Colormap)
    ensures var e := PublishSpec(c, colormap);
      c.dataReady && c.gotInfo && !c.locked ==>
        e.after == c.(dataReady := false, locked := e.outcome == Raised)
    ensures var e := PublishSpec(c, colormap);
      PublishSpec(e.after, colormap)
        == Effect(e.after, [], if e.outcome == Blocked then Blocked else Completed)
  {
  }

  /** A firing publish emits the markers of tip 0 from the left readings,
      then, unless tip 0 failed, those of tip 1 from the right readings. */
  lemma PublishEmits(c: Cache, colormap: Colormap)
    requires c.dataReady && c.gotInfo && !c.locked
    ensures var e := PublishSpec(c, colormap);
      e.emitted == TipMarkers(c, 0, c.lFingerTip, colormap)
                   + (if CellsAvailable(c, 0, c.lFingerTip) == CellsPerTip
                      then TipMarkers(c, 1, c.rFingerTip, colormap) else [])
    ensures var e := PublishSpec(c, colormap);
      (e.outcome == Completed) ==
      (Covers(c, 0, c.lFingerTip, CellsPerTip) && Covers(c, 1, c.rFingerTip, CellsPerTip))
    ensures PublishSpec(c, colormap).outcome != Blocked
  {
    var busy := c.(locked := true, dataReady := false);
    RenderIgnoresFlags(c, busy, 0, c.lFingerTip, colormap);
    RenderIgnoresFlags(c, busy, 1, c.rFingerTip, colormap);
  }

  /** The markers of cells 0 .. i, from those of cells 0 .. i-1. */
  lemma TipMarkersGrow(c: Cache, tip: nat, data: seq<int>, colormap: Colormap, i: nat)
    requires Covers(c, tip, data, i + 1) && i < CellsPerTip
    ensures i < |TipMarkers(c, tip, data, colormap)|
    ensures TipMarkers(c, tip, data, colormap)[..i + 1]
         == TipMarkers(c, tip, data, colormap)[..i] + [CellOf(c, tip, data, i, colormap)]
  {
    var all := TipMarkers(c, tip, data, colormap);
    assert all[..i + 1] == all[..i] + [all[i]];
  }

  /** Cell k of a tip's markers is that cell's marker. */
  lemma TipMarkerAt(c: Cache, tip: nat, data: seq<int>, colormap: Colormap, k: nat)
    requires k < |TipMarkers(c, tip, data, colormap)|
    ensures Covers(c, tip, data, k + 1)
    ensures TipMarkers(c, tip, data, colormap)[k] == CellOf(c, tip, data, k, colormap)
  {
  }

  /** A firing publish emits at most 44 markers, exactly 44 when it completes. */
  lemma PublishCount(c: Cache, colormap: Colormap)
    requires c.dataReady && c.gotInfo && !c.locked
    ensures |PublishSpec(c, colormap).emitted| <= 2 * CellsPerTip
    ensures PublishSpec(c, colormap).outcome == Completed ==> |PublishSpec(c, colormap).emitted| == 2 * CellsPerTip
  {
    PublishEmits(c, colormap);
  }

  /** The first 22 markers of a firing publish are cells 0 .. 21 of tip 0, in order. */
  lemma PublishedLeftAt(c: Cache, colormap: Colormap, k: nat)
    requires c.dataReady && c.gotInfo && !c.locked
    requires k < |PublishSpec(c, colormap).emitted| && k < CellsPerTip
    ensures Covers(c, 0, c.lFingerTip, k + 1)
    ensures PublishSpec(c, colormap).emitted[k] == CellOf(c, 0, c.lFingerTip, k, colormap)
  {
    PublishEmits(c, colormap);
    var left := TipMarkers(c, 0, c.lFingerTip, colormap);
    assert k < |left|;
    TipMarkerAt(c, 0, c.lFingerTip, colormap, k);
  }

  /** Marker 22 + k of a firing publish is cell k of tip 1. */
  lemma PublishedRightAt(c: Cache, colormap: Colormap, k: nat)
    requires c.dataReady && c.gotInfo && !c.locked
    requires CellsPerTip + k < |PublishSpec(c, colormap).emitted|
    ensures Covers(c, 1, c.rFingerTip, k + 1)
    ensures PublishSpec(c, colormap).emitted[CellsPerTip + k] == CellOf(c, 1, c.rFingerTip, k, colormap)
  {
    PublishEmits(c, colormap);
    var left := TipMarkers(c, 0, c.lFingerTip, colormap);
    var right := TipMarkers(c, 1, c.rFingerTip, colormap);
    assert |left| == CellsPerTip;
    assert PublishSpec(c, colormap).emitted[CellsPerTip + k] == right[k];
    TipMarkerAt(c, 1, c.rFingerTip, colormap, k);
  }

  /** Every field of the marker for cell i of a tip. */
  lemma MarkerFields(c: Cache, tip: nat, data: seq<int>, colormap: Colormap, i: nat)
    requires i < |TipMarkers(c, tip, data, colormap)|
    ensures var m := TipMarkers(c, tip, data, colormap)[i];
      && Covers(c, tip, data, i + 1)
      && m.header == Header(c.frame[tip], c.dataTimestamp)
      && m.ns == c.frame[tip] + "/line"
      && m.id == i
      && m.kind == LineStrip
      && m.action == ActionAdd
      && m.pose.position == c.center[tip][i]
      && m.pose.orientation == Quaternion(0.0, 0.0, 0.0, 1.0)
      && m.scale == Vector3(LineWidth, 0.0, 0.0)
      && m.points == Corners(c.hside1[tip][i], c.hside2[tip][i])
      && m.color.a == 1.0
      && (m.color.r, m.color.g, m.color.b) == colormap(data[i] as real / FullScale)
  {
  }

  /** callback replaces the readings and the stamp and raises dataReady,
      leaving the geometry and gotInfo alone; the later of two calls wins. */
  lemma CallbackLastWriterWins(c: Cache, first: PressureState, second: PressureState)
    requires !c.locked
    ensures CallbackSpec(CallbackSpec(c, first).after, second) == CallbackSpec(c, second)
    ensures var a := CallbackSpec(c, second).after;
      && a.lFingerTip == second.lFingerTip && a.rFingerTip == second.rFingerTip
      && a.dataTimestamp == second.stamp && a.dataReady
      && a.frame == c.frame && a.center == c.center && a.hside1 == c.hside1 && a.hside2 == c.hside2
      && a.gotInfo == c.gotInfo && !a.locked
  {
  }

  /** info_callback takes the geometry of sensors 0 and 1 and raises gotInfo;
      with fewer than two sensors it fails, keeping gotInfo and holding the
      lock. Either way the readings and dataReady are left alone. */
  lemma InfoCallbackReplacesGeometry(c: Cache, info: PressureInfo)
    requires !c.locked
    ensures var e := InfoSpec(c, info);
      2 <= |info.sensor| ==>
        && e.outcome == Completed && e.after.gotInfo && !e.after.locked
        && e.after.frame == [info.sensor[0].frameId, info.sensor[1].frameId]
        && e.after.center == [info.sensor[0].center, info.sensor[1].center]
        && e.after.hside1 == [info.sensor[0].halfside1, info.sensor[1].halfside1]
        && e.after.hside2 == [info.sensor[0].halfside2, info.sensor[1].halfside2]
    ensures var e := InfoSpec(c, info);
      |info.sensor| < 2 ==>
        e.outcome == Raised && e.after.locked && e.after.gotInfo == c.gotInfo
        && |e.after.frame| == |info.sensor|
    ensures var a := InfoSpec(c, info).after;
      && a.lFingerTip == c.lFingerTip && a.rFingerTip == c.rFingerTip
      && a.dataTimestamp == c.dataTimestamp && a.dataReady == c.dataReady
  {
  }

  /** Of two complete geometry messages, the later one wins. */
  lemma InfoCallbackLastWriterWins(c: Cache, first: PressureInfo, second: PressureInfo)
    requires !c.locked && 2 <= |first.sensor| && 2 <= |second.sensor|
    ensures InfoSpec(InfoSpec(c, first).after, second) == InfoSpec(c, second)
  {
  }

  /** Every operation keeps the geometry lists side by side, and a node that
      has its geometry and a free lock holds both fingertips. */
  lemma OperationsKeepWellFormed(c: Cache, info: PressureInfo, msg: PressureState, colormap: Colormap)
    requires WellFormed(c)
    ensures WellFormed(InfoSpec(c, info).after)
    ensures WellFormed(CallbackSpec(c, msg).after)
    ensures WellFormed(PublishSpec(c, colormap).after)
  {
  }

  /** So in a well-formed cache, the frame lookup of a firing publish never fails. */
  lemma FramesPresentWhenFiring(c: Cache, data: seq<int>)
    requires WellFormed(c) && c.gotInfo && !c.locked
    ensures Covers(c, 0, data, 0) && Covers(c, 1, data, 0)
  {
  }

  class PressureVisualizer {
    var frame: seq<string>
    var center: seq<seq<Vector3>>
    var hside1: seq<seq<Vector3>>
    var hside2: seq<seq<Vector3>>
    var lFingerTip: seq<int>
    var rFingerTip: seq<int>
    var dataTimestamp: Time
    var gotInfo: bool
    var dataReady: bool
    /** True while the node's lock is held. */
    var locked: bool

    function Snapshot(): Cache
      reads this
    {
      Cache(frame, center, hside1, hside2, lFingerTip, rFingerTip, dataTimestamp,
            gotInfo, dataReady, locked)
    }

    constructor ()
      ensures Snapshot() == Initial
    {
      frame, center, hside1, hside2 := [], [], [], [];
      lFingerTip, rFingerTip, dataTimestamp := [], [], Time(0, 0);
      gotInfo := false;
      dataReady := false;
      locked := false;
    }

    method InfoCallback(info: PressureInfo) returns (outcome: Outcome)
      modifies this
      ensures Snapshot() == InfoSpec(old(Snapshot()), info).after
      ensures outcome == InfoSpec(old(Snapshot()), info).outcome
    {
      if locked {
        return Blocked;
      }
      locked := true;
      frame, center, hside1, hside2 := [], [], [], [];
      for i := 0 to 2
        invariant i <= |info.sensor|
        invariant frame == FrameIds(info.sensor[..i]) && center == Centers(info.sensor[..i])
        invariant hside1 == HalfSides1(info.sensor[..i]) && hside2 == HalfSides2(info.sensor[..i])
        invariant Snapshot() == old(Snapshot()).(frame := frame, center := center,
                                                  hside1 := hside1, hside2 := hside2, locked := true)
      {
        if i >= |info.sensor| {
          assert info.sensor[..i] == info.sensor[..Min(2, |info.sensor|)];
          return Raised;
        }
        var element := info.sensor[i];
        ExtendLists(info.sensor, i);
        frame := frame + [element.frameId];
        center := center + [element.center];
        hside1 := hside1 + [element.halfside1];
        hside2 := hside2 + [element.halfside2];
      }
      assert info.sensor[..2] == info.sensor[..Min(2, |info.sensor|)];
      gotInfo := true;
      locked := false;
      outcome := Completed;
    }

    method Callback(msg: PressureState) returns (outcome: Outcome)
      modifies this
      ensures Snapshot() == CallbackSpec(old(Snapshot()), msg).after
      ensures outcome == CallbackSpec(old(Snapshot()), msg).outcome
    {
      if locked {
        return Blocked;
      }
      locked := true;
      lFingerTip := msg.lFingerTip;
      rFingerTip := msg.rFingerTip;
      dataTimestamp := msg.stamp;
      dataReady := true;
      locked := false;
      outcome := Completed;
    }

    method Publish(colormap: Colormap) returns (emitted: seq<Marker>, outcome: Outcome)
      modifies this
      ensures Snapshot() == PublishSpec(old(Snapshot()), colormap).after
      ensures emitted == PublishSpec(old(Snapshot()), colormap).emitted
      ensures outcome == PublishSpec(old(Snapshot()), colormap).outcome
    {
      emitted, outcome := [], Completed;
      if dataReady && gotInfo {
        if locked {
          outcome := Blocked;
          return;
        }
        locked := true;
        dataReady := false;
        var left, leftOutcome := MakeVisualization(lFingerTip, 0, colormap);
        emitted := left;
        if leftOutcome == Raised {
          outcome := Raised;
          return;
        }
        var right, rightOutcome := MakeVisualization(rFingerTip, 1, colormap);
        emitted := emitted + right;
        outcome := rightOutcome;
        if rightOutcome == Raised {
          return;
        }
        locked := false;
      }
    }

    /** Publishes the markers of fingertip `tip`, colouring cell i from
        data[i]. One marker value is reused and updated field by field; each
        published marker is the value it holds at that moment. */
    method MakeVisualization(data: seq<int>, tip: nat, colormap: Colormap)
      returns (emitted: seq<Marker>, outcome: Outcome)
      ensures Render(emitted, outcome) == RenderTip(Snapshot(), tip, data, colormap)
    {
      ghost var c := Snapshot();
      emitted := [];
      if tip >= |frame| {
        StopsAt(c, tip, data, colormap, 0);
        return emitted, Raised;
      }
      var mk := BlankMarker;
      mk := mk.(header := mk.header.(frameId := frame[tip]));
      mk := mk.(header := mk.header.(stamp := dataTimestamp));
      mk := mk.(ns := mk.header.frameId + "/line");
      mk := mk.(kind := LineStrip);
      mk := mk.(action := ActionAdd);
      var points: seq<Vector3> := [];
      for j := 0 to 5
        invariant |points| == j
      {
        points := points + [Origin];
      }
      var i := 0;
      while i < CellsPerTip
        invariant i <= CellsPerTip
        invariant i <= CellsAvailable(c, tip, data)
        invariant emitted == TipMarkers(c, tip, data, colormap)[..i]
        invariant mk.header == Header(frame[tip], dataTimestamp) && mk.ns == frame[tip] + "/line"
        invariant mk.kind == LineStrip && mk.action == ActionAdd
        invariant mk.pose.orientation.x == 0.0 && mk.pose.orientation.y == 0.0 && mk.pose.orientation.z == 0.0
        invariant mk.scale.y == 0.0 && mk.scale.z == 0.0
        invariant |points| == 5
      {
        mk := mk.(id := i);
        if tip >= |center| || i >= |center[tip]| {
          StopsAt(c, tip, data, colormap, i);
          return emitted, Raised;
        }
        mk := mk.(pose := mk.pose.(position := center[tip][i]));
        mk := mk.(pose := mk.pose.(orientation := mk.pose.orientation.(w := 1.0)));
        mk := mk.(scale := mk.scale.(x := LineWidth));
        if tip >= |hside1| || i >= |hside1[tip]| {
          StopsAt(c, tip, data, colormap, i);
          return emitted, Raised;
        }
        var h1 := hside1[tip][i];
        if tip >= |hside2| || i >= |hside2[tip]| {
          StopsAt(c, tip, data, colormap, i);
          return emitted, Raised;
        }
        var h2 := hside2[tip][i];
        points := SetCorners(points, h1, h2);
        mk := mk.(points := points);
        mk := mk.(color := mk.color.(a := 1.0));
        if i >= |data| {
          StopsAt(c, tip, data, colormap, i);
          return emitted, Raised;
        }
        var rgb := colormap(data[i] as real / FullScale);
        mk := mk.(color := mk.color.(r := rgb.0, g := rgb.1, b := rgb.2));
        assert mk == CellOf(c, tip, data, i, colormap);
        TipMarkersGrow(c, tip, data, colormap, i);
        emitted := emitted + [mk];
        i := i + 1;
      }
      outcome := Completed;
    }

    /** Overwrites the five points of the reused marker with the outline of a
        cell, coordinate by coordinate, and closes it by making the fifth
        point the first. */
    static method SetCorners(points: seq<Vector3>, h1: Vector3, h2: Vector3)
      returns (outline: seq<Vector3>)
      requires |points| == 5
      ensures outline == Corners(h1, h2)
    {
      outline := points;
      outline := outline[0 := outline[0].(x := h1.x + h2.x)];
      outline := outline[1 := outline[1].(x := h1.x - h2.x)];
      outline := outline[2 := outline[2].(x := -h1.x - h2.x)];
      outline := outline[3 := outline[3].(x := -h1.x + h2.x)];
      outline := outline[0 := outline[0].(y := h1.y + h2.y)];
      outline := outline[1 := outline[1].(y := h1.y - h2.y)];
      outline := outline[2 := outline[2].(y := -h1.y - h2.y)];
      outline := outline[3 := outline[3].(y := -h1.y + h2.y)];
      outline := outline[0 := outline[0].(z := h1.z + h2.z)];
      outline := outline[1 := outline[1].(z := h1.z - h2.z)];
      outline := outline[2 := outline[2].(z := -h1.z - h2.z)];
      outline := outline[3 := outline[3].(z := -h1.z + h2.z)];
      outline := outline[4 := outline[0]];
    }
  }
}
