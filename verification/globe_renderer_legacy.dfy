/**
 * The older renderer of `src/components/globe/GlobeRenderer.tsx`: a projection
 * at scale 550, a node-click report, and a `d3.timer` loop driven by the
 * closure variables `rotation` and `dragging`. Dragging pauses the loop rather
 * than stopping it. Each timer callback is an explicit call of `Tick`.
 */
module GlobeRendererLegacy {
  import opened Types
  import opened Projection
  import GlobeRenderer

  const InitialScale: real := 550.0

  /** Degrees of longitude added per timer callback. */
  const TickStep: real := 0.5

  /** `initializeGlobe`: scale 550, centred in the drawing, d3's default rotation [0, 0, 0]. */
  function InitialState(width: real, height: real): (s: ProjectionState)
    ensures s.scale == InitialScale && s.rotation == Rotation(0.0, 0.0, 0.0)
    ensures s.translate.x + s.translate.x == width && s.translate.y + s.translate.y == height
  {
    ProjectionState(Rotation(0.0, 0.0, 0.0), InitialScale, ScreenPoint(width / 2.0, height / 2.0))
  }

  /** The two closure variables of the timer loop. */
  datatype Timer = Timer(rotation: real, dragging: bool)

  /** What can reach the loop: a timer callback or a `setDragging(value)` call. */
  datatype TimerEvent = Tick | SetDragging(value: bool)

  /**
   * One event. A tick does nothing when no timer was started (`shouldRotate`
   * false) or while dragging; otherwise it adds 0.5 with no wrap-around.
   */
  function Step(t: Timer, e: TimerEvent, shouldRotate: bool): (u: Timer)
    ensures e.SetDragging? ==> u == t.(dragging := e.value)
    ensures e.Tick? ==> u.dragging == t.dragging && u.rotation >= t.rotation
    ensures e.Tick? ==> (u.rotation == t.rotation <==> !shouldRotate || t.dragging)
  {
    match e
    case SetDragging(v) => t.(dragging := v)
    case Tick => if !shouldRotate || t.dragging then t else t.(rotation := t.rotation + TickStep)
  }

  function Replay(t: Timer, events: seq<TimerEvent>, shouldRotate: bool): Timer
    decreases |events|
  {
    if |events| == 0 then t else Replay(Step(t, events[0], shouldRotate), events[1..], shouldRotate)
  }

  /** The number of ticks in `events` that find the loop running (not dragging). */
  function AdvancingTicks(dragging: bool, events: seq<TimerEvent>): nat
    decreases |events|
  {
    if |events| == 0 then 0
    else match events[0]
      case SetDragging(v) => AdvancingTicks(v, events[1..])
      case Tick => (if dragging then 0 else 1) + AdvancingTicks(dragging, events[1..])
  }

  /**
   * With a timer running, the longitude advances by exactly 0.5 per tick that
   * finds the loop unpaused, whatever the interleaving of pauses and resumes.
   */
  lemma {:induction false} ReplayRotation(t: Timer, events: seq<TimerEvent>)
    ensures Replay(t, events, true).rotation == t.rotation + TickStep * AdvancingTicks(t.dragging, events) as real
    decreases |events|
  {
    if |events| > 0 {
      ReplayRotation(Step(t, events[0], true), events[1..]);
    }
  }

  /** Without a timer (`shouldRotate` false) the longitude never moves. */
  lemma {:induction false} NoTimerNoRotation(t: Timer, events: seq<TimerEvent>)
    ensures Replay(t, events, false).rotation == t.rotation
    decreases |events|
  {
    if |events| > 0 {
      NoTimerNoRotation(Step(t, events[0], false), events[1..]);
    }
  }

  /** Dragging is a pause: after `setDragging(false)` the next tick advances again. */
  lemma PauseThenResume(r: real)
    ensures Replay(Timer(r, false), [SetDragging(true), Tick, SetDragging(false), Tick], true) == Timer(r + TickStep, false)
  {
    var events := [SetDragging(true), Tick, SetDragging(false), Tick];
    assert events[1..][1..][1..][1..] == [];
    calc {
      Replay(Timer(r, false), events, true);
      Replay(Timer(r, true), events[1..], true);
      Replay(Timer(r, true), events[1..][1..], true);
      Replay(Timer(r, false), events[1..][1..][1..], true);
      Replay(Timer(r + TickStep, false), events[1..][1..][1..][1..], true);
    }
  }

  /** The rendered globe of the older renderer. */
  class LegacyRenderer {
    const projection: GeoProjection
    const nodes: seq<Node>
    const shouldRotate: bool
    var rotation: real
    var dragging: bool

    function State(): (t: Timer)
      reads this
      ensures t.rotation == rotation && t.dragging == dragging
    {
      Timer(rotation, dragging)
    }

    /** `renderGlobe`: both closure variables start at 0 / false. */
    constructor (projection: GeoProjection, nodes: seq<Node>, shouldRotate: bool)
      ensures this.projection == projection && this.nodes == nodes && this.shouldRotate == shouldRotate
      ensures State() == Timer(0.0, false)
    {
      this.projection := projection;
      this.nodes := nodes;
      this.shouldRotate := shouldRotate;
      rotation := 0.0;
      dragging := false;
    }

    /**
     * The `d3.timer` callback: when it advances, the projection is set to
     * `[rotation, 0]`, discarding the latitude and roll a drag produced.
     */
    method Tick()
      modifies this, projection
      ensures State() == Step(old(State()), TimerEvent.Tick, shouldRotate)
      ensures projection.scale == old(projection.scale) && projection.translate == old(projection.translate)
      ensures rotation != old(rotation) ==> projection.rotation == Rotation(rotation, 0.0, 0.0)
      ensures rotation == old(rotation) ==> projection.rotation == old(projection.rotation)
    {
      if !shouldRotate || dragging {
        return;
      }
      rotation := rotation + TickStep;
      projection.rotation := Rotation(rotation, 0.0, 0.0);
    }

    /** `setDragging(value)`: only records the flag. */
    method SetDragging(value: bool)
      modifies this
      ensures State() == Step(old(State()), TimerEvent.SetDragging(value), shouldRotate)
    {
      dragging := value;
    }

    /** A click on marker `i` reports the node and `userNodes.indexOf(d)`; rotation is untouched. */
    method OnNodeClick(i: nat) returns (node: Node, index: int)
      requires i < |nodes|
      ensures node == nodes[i]
      ensures 0 <= index <= i && nodes[index] == node
      ensures forall j :: 0 <= j < index ==> nodes[j] != node
    {
      node := nodes[i];
      index := GlobeRenderer.IndexOf(nodes, node);
    }
  }
}
