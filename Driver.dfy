/** The node seen from outside: geometry messages, reading messages and
    publish ticks arrive one at a time, each handled atomically, and the
    markers published along the way are collected in order. Also the main
    loop's tick over the two visualizers the node runs. */
module Driver {
  import opened Messages
  import opened Outline
  import opened Visualizer

  /** One atomic step of the node: a callback run or a publish call. */
  datatype Event =
    | InfoArrives(info: PressureInfo)
    | DataArrives(msg: PressureState)
    | PublishCall

  /** The state after a run of events, and every marker published during it, in order. */
  datatype History = History(after: Cache, emitted: seq<Marker>)

  function Step(c: Cache, e: Event, colormap: Colormap): Effect {
    match e
    case InfoArrives(info) => InfoSpec(c, info)
    case DataArrives(msg) => CallbackSpec(c, msg)
    case PublishCall => PublishSpec(c, colormap)
  }

  function Run(c: Cache, events: seq<Event>, colormap: Colormap): History
    decreases |events|
  {
    if events == [] then History(c, [])
    else
      var first := Step(c, events[0], colormap);
      var rest := Run(first.after, events[1..], colormap);
      History(rest.after, first.emitted + rest.emitted)
  }

  /** A geometry message carrying both fingertips. */
  predicate IsFullInfo(e: Event) {
    e.InfoArrives? && 2 <= |e.info.sensor|
  }

  function CountData(events: seq<Event>): nat {
    if events == [] then 0
    else (if events[0].DataArrives? then 1 else 0) + CountData(events[1..])
  }

  /** With dataReady down and no reading message to come, nothing is published. */
  lemma {:induction false} SilentWithoutData(c: Cache, events: seq<Event>, colormap: Colormap)
    requires !c.dataReady
    requires forall k :: 0 <= k < |events| ==> !events[k].DataArrives?
    ensures Run(c, events, colormap).emitted == []
    decreases |events|
  {
    if events != [] {
      var first := Step(c, events[0], colormap);
      assert !events[0].DataArrives?;
      assert first.emitted == [] && !first.after.dataReady;
      SilentWithoutData(first.after, events[1..], colormap);
    }
  }

  /** With gotInfo down and no complete geometry message to come, nothing is published. */
  lemma {:induction false} SilentWithoutInfo(c: Cache, events: seq<Event>, colormap: Colormap)
    requires !c.gotInfo
    requires forall k :: 0 <= k < |events| ==> !IsFullInfo(events[k])
    ensures Run(c, events, colormap).emitted == []
    decreases |events|
  {
    if events != [] {
      var first := Step(c, events[0], colormap);
      assert !IsFullInfo(events[0]);
      assert first.emitted == [] && !first.after.gotInfo;
      SilentWithoutInfo(first.after, events[1..], colormap);
    }
  }

  /** From a freshly constructed node, no marker is published before both a
      reading message and a complete geometry message have arrived. */
  lemma NoMarkersBeforeBothUpdates(events: seq<Event>, colormap: Colormap)
    ensures Run(Initial, events, colormap).emitted != [] ==>
      && (exists k :: 0 <= k < |events| && events[k].DataArrives?)
      && (exists k :: 0 <= k < |events| && IsFullInfo(events[k]))
  {
    if !exists k :: 0 <= k < |events| && events[k].DataArrives? {
      SilentWithoutData(Initial, events, colormap);
    }
    if !exists k :: 0 <= k < |events| && IsFullInfo(events[k]) {
      SilentWithoutInfo(Initial, events, colormap);
    }
  }

  /** 44 when dataReady is up: the markers a pending reading may still produce. */
  function Pending(c: Cache): nat {
    if c.dataReady then 2 * CellsPerTip else 0
  }

  /** One step publishes at most what was pending, plus one render for a new reading. */
  lemma StepBudget(c: Cache, e: Event, colormap: Colormap)
    ensures var s := Step(c, e, colormap);
      |s.emitted| + Pending(s.after) <= Pending(c) + (if e.DataArrives? then 2 * CellsPerTip else 0)
  {
    if e.PublishCall? && c.dataReady && c.gotInfo && !c.locked {
      PublishCount(c, colormap);
    }
  }

  /** Each reading message is rendered at most once: a run publishes at most
      44 markers per reading message, plus 44 for a reading already pending. */
  lemma {:induction false} OneRenderPerReading(c: Cache, events: seq<Event>, colormap: Colormap)
    ensures var h := Run(c, events, colormap);
      |h.emitted| + Pending(h.after) <= Pending(c) + 2 * CellsPerTip * CountData(events)
    decreases |events|
  {
    if events != [] {
      var first := Step(c, events[0], colormap);
      StepBudget(c, events[0], colormap);
      OneRenderPerReading(first.after, events[1..], colormap);
    }
  }

  /** From a freshly constructed node: at most 44 markers per reading message. */
  lemma AtMostOneRenderPerReading(events: seq<Event>, colormap: Colormap)
    ensures |Run(Initial, events, colormap).emitted| <= 2 * CellsPerTip * CountData(events)
  {
    OneRenderPerReading(Initial, events, colormap);
  }

  /** Once the lock is left held by a failed call, the node never changes
      and never publishes again. */
  lemma {:induction false} LockedStaysSilent(c: Cache, events: seq<Event>, colormap: Colormap)
    requires c.locked
    ensures Run(c, events, colormap) == History(c, [])
    decreases |events|
  {
    if events != [] {
      assert Step(c, events[0], colormap).after == c;
      LockedStaysSilent(c, events[1..], colormap);
    }
  }

  /** Every run keeps the geometry lists side by side. */
  lemma {:induction false} RunKeepsWellFormed(c: Cache, events: seq<Event>, colormap: Colormap)
    requires WellFormed(c)
    ensures WellFormed(Run(c, events, colormap).after)
    decreases |events|
  {
    if events != [] {
      var e := events[0];
      var first := Step(c, e, colormap);
      match e {
        case InfoArrives(info) =>
          OperationsKeepWellFormed(c, info, PressureState(Time(0, 0), [], []), colormap);
        case DataArrives(msg) =>
          OperationsKeepWellFormed(c, PressureInfo([]), msg, colormap);
        case PublishCall =>
          OperationsKeepWellFormed(c, PressureInfo([]), PressureState(Time(0, 0), [], []), colormap);
      }
      RunKeepsWellFormed(first.after, events[1..], colormap);
    }
  }

  /** One pass of the main loop: publish on the first visualizer, then on the
      second. An exception from the first ends the loop before the second is
      called, and so does a publish that waits forever on its lock. Each
      visualizer renders only from its own cache. */
  method Tick(first: PressureVisualizer, second: PressureVisualizer, colormap: Colormap)
    returns (emitted: seq<Marker>, outcome: Outcome)
    requires first != second
    modifies first, second
    ensures var one := PublishSpec(old(first.Snapshot()), colormap);
      && first.Snapshot() == one.after
      && if one.outcome == Completed then
           var two := PublishSpec(old(second.Snapshot()), colormap);
           && second.Snapshot() == two.after
           && emitted == one.emitted + two.emitted
           && outcome == two.outcome
         else
           && second.Snapshot() == old(second.Snapshot())
           && emitted == one.emitted
           && outcome == one.outcome
  {
    emitted, outcome := first.Publish(colormap);
    if outcome == Completed {
      var more;
      more, outcome := second.Publish(colormap);
      emitted := emitted + more;
    }
  }
}
