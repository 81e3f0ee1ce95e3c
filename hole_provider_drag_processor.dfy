/**
  Dragging an object with a hole (a door or a window) onto the 2D plan. The
  moves only track the pointer; on completion the object is added at the
  origin and bound to the wall nearest to the last pointer position, both in
  one composite command, or a notification says that no wall is available.
*/
module HoleProviderDragProcessors {
  import opened Wrappers
  import opened Geometry
  import opened ObjectModels
  import opened DragEffects

  /** The notification shown when no wall is near the drop point. */
  const NoWallAvailable := "Невозможно добавить. Нет доступных стен"

  /** The part of the processor a drag changes: the stored pointer position and the effect log. */
  datatype State = State(pointerPosition: Vec2, log: seq<Effect>)

  /**
    What the completion handler adds after hiding the preview and adding the
    selection tool. `planePoint` is the raycast against the walls' plane at
    the stored pointer position and `wall` the nearest wall to that point.
  */
  function DropEffects(flipYZ: Vec3 -> Vec3, model: ObjectModel, floor: int,
                       planePoint: Vec3, wall: Option<Wall>): (e: seq<Effect>)
    ensures |e| == 1
    ensures wall.None? <==> e[0] == Notify(NoWallAvailable)
    ensures wall.Some? ==>
              var add := AddObjectCommand(model, Zero3, floor);
              e[0] == Execute(Composite([Add(add), BindToWall(add, OnFloor(flipYZ(planePoint)), wall.value)]))
  {
    if wall.None? then [Notify(NoWallAvailable)]
    else
      var add := AddObjectCommand(model, Zero3, floor);
      [Execute(Composite([Add(add), BindToWall(add, OnFloor(flipYZ(planePoint)), wall.value)]))]
  }

  /** `ObjectDragBegan`: the highlight tool, the preview at `at`, the subscription. */
  function BeginStep(s: State, model: ObjectModel, at: Vec2): (r: State)
    ensures r.pointerPosition == s.pointerPosition
    ensures r.log == s.log + [AddTool(HighlightNearestWallTool), DisplayPreview(model, at), Subscribe]
  {
    State(s.pointerPosition, s.log + [AddTool(HighlightNearestWallTool), DisplayPreview(model, at), Subscribe])
  }

  /** `ProcessObjectDrag`: remember the pointer and move the preview there; nothing is executed. */
  function DragStep(s: State, e: PointerEvent): (r: State)
    ensures r.pointerPosition == e.position
    ensures r.log == s.log + [MovePreview(e.position)]
    ensures CountExecutes(r.log) == CountExecutes(s.log)
  {
    CountExecutesAppend(s.log, [MovePreview(e.position)]);
    State(e.position, s.log + [MovePreview(e.position)])
  }

  /** `ObjectDragCompleted` for the dragged `model`. */
  function CompleteStep(plane: Vec2 -> Hit, flipYZ: Vec3 -> Vec3, nearestWall: Vec3 -> Option<Wall>,
                        model: ObjectModel, floor: int, s: State): (r: State)
    ensures r.pointerPosition == s.pointerPosition
    ensures |r.log| == |s.log| + 3 && r.log[..|s.log| + 2] == s.log + [HidePreview, AddTool(SelectionTool)]
    ensures r.log[|s.log| + 2] ==
              DropEffects(flipYZ, model, floor, plane(s.pointerPosition).point, nearestWall(plane(s.pointerPosition).point))[0]
    ensures CountExecutes(r.log) == CountExecutes(s.log) + (if nearestWall(plane(s.pointerPosition).point).Some? then 1 else 0)
  {
    var point := plane(s.pointerPosition).point;
    var drop := DropEffects(flipYZ, model, floor, point, nearestWall(point));
    CountExecutesAppend(s.log + [HidePreview, AddTool(SelectionTool)], drop);
    CountExecutesAppend(s.log, [HidePreview, AddTool(SelectionTool)]);
    assert CountExecutes(drop) == if drop[0].Execute? then 1 else 0;
    State(s.pointerPosition, s.log + [HidePreview, AddTool(SelectionTool)] + drop)
  }

  /** The moves of one drag, in order. */
  function Moves(s: State, events: seq<PointerEvent>): State
    decreases |events|
  {
    if events == [] then s else Moves(DragStep(s, events[0]), events[1..])
  }

  /**
    The moves of a drag execute nothing, and leave the pointer at the last
    move's position, or where it was when there was no move: the field
    persists from one drag to the next.
  */
  lemma {:induction false} MovesTrackPointer(s: State, events: seq<PointerEvent>)
    ensures Moves(s, events).pointerPosition == if events == [] then s.pointerPosition else events[|events| - 1].position
    ensures CountExecutes(Moves(s, events).log) == CountExecutes(s.log)
    decreases |events|
  {
    if events != [] {
      MovesTrackPointer(DragStep(s, events[0]), events[1..]);
      if |events| > 1 {
        assert events[1..][|events[1..]| - 1] == events[|events| - 1];
      }
    }
  }

  /** A whole drag gesture of `model`: begin at `at`, the moves `events`, then completion. */
  function Gesture(plane: Vec2 -> Hit, flipYZ: Vec3 -> Vec3, nearestWall: Vec3 -> Option<Wall>,
                   model: ObjectModel, floor: int, s: State, at: Vec2, events: seq<PointerEvent>): State
  {
    CompleteStep(plane, flipYZ, nearestWall, model, floor, Moves(BeginStep(s, model, at), events))
  }

  /**
    A gesture executes one command iff a wall is near the point the last move
    (or, with no move, the stored position) casts onto the walls' plane.
  */
  lemma GestureExecutesOnlyAtAWall(plane: Vec2 -> Hit, flipYZ: Vec3 -> Vec3, nearestWall: Vec3 -> Option<Wall>,
                                   model: ObjectModel, floor: int, s: State, at: Vec2, events: seq<PointerEvent>)
    ensures var drop := if events == [] then s.pointerPosition else events[|events| - 1].position;
            CountExecutes(Gesture(plane, flipYZ, nearestWall, model, floor, s, at, events).log) ==
              CountExecutes(s.log) + (if nearestWall(plane(drop).point).Some? then 1 else 0)
  {
    var b := BeginStep(s, model, at);
    CountExecutesAppend(s.log, [AddTool(HighlightNearestWallTool), DisplayPreview(model, at), Subscribe]);
    MovesTrackPointer(b, events);
  }

  /**
    `HoleProviderObjectDragProcessor`. `plane` is the raycast against the
    walls' plane, `flipYZ` is `Vector3.FlipYZ` and `nearestWall` is the
    current floor's `GetNearestWall`.
  */
  class HoleProviderDragProcessor {
    const plane: Vec2 -> Hit
    const flipYZ: Vec3 -> Vec3
    const nearestWall: Vec3 -> Option<Wall>
    var pointerPosition: Vec2
    ghost var log: seq<Effect>

    ghost function Current(): State
      reads this
    {
      State(pointerPosition, log)
    }

    constructor (plane: Vec2 -> Hit, flipYZ: Vec3 -> Vec3, nearestWall: Vec3 -> Option<Wall>)
      ensures this.plane == plane && this.flipYZ == flipYZ && this.nearestWall == nearestWall
      ensures pointerPosition == Zero2 && log == []
    {
      this.plane := plane;
      this.flipYZ := flipYZ;
      this.nearestWall := nearestWall;
      pointerPosition := Zero2;
      log := [];
    }

    /** `ObjectDragBegan`. */
    method ObjectDragBegan(model: ObjectModel, at: Vec2)
      modifies this
      ensures Current() == BeginStep(old(Current()), model, at)
    {
      log := log + [AddTool(HighlightNearestWallTool), DisplayPreview(model, at), Subscribe];
    }

    /** `ProcessObjectDrag`. */
    method ProcessObjectDrag(e: PointerEvent)
      modifies this
      ensures Current() == DragStep(old(Current()), e)
    {
      pointerPosition := e.position;
      log := log + [MovePreview(pointerPosition)];
    }

    /** `ObjectDragCompleted` for the subscribed drag of `model`; `floor` is the apartment's current floor index. */
    method ObjectDragCompleted(model: ObjectModel, floor: int)
      modifies this
      ensures Current() == CompleteStep(plane, flipYZ, nearestWall, model, floor, old(Current()))
    {
      log := log + [HidePreview, AddTool(SelectionTool)];
      var planePosition := plane(pointerPosition).point;
      var wall := nearestWall(planePosition);
      if wall.None? {
        log := log + [Notify(NoWallAvailable)];
        return;
      }
      planePosition := OnFloor(flipYZ(planePosition));
      var add := AddObjectCommand(model, Zero3, floor);
      var bind := BindToWall(add, planePosition, wall.value);
      var composite := Composite([Add(add), bind]);
      log := log + [Execute(composite)];
    }
  }
}
