/**
  The standard drag processors, in the 2D plan and in the 3D scene. They
  share the template of `AbstractStandardObjectDragProcessor`: drag-begin
  shows the preview and subscribes; each move moves the preview and, unless
  the pointer is over the UI, reaches the mode's move handler; completion
  hides the preview and calls the mode's completion handler. Both keep an
  `addObjectCommand` that the first handled move creates and executes, later
  moves reposition and completion records and drops.
*/
module StandardDragProcessors {
  import opened Wrappers
  import opened Geometry
  import opened ObjectModels
  import opened DragEffects

  datatype Mode = Plan2D | Scene3D

  /** The part of a processor a drag changes: its command and the effect log. */
  datatype State = State(command: Option<AddObjectCommand>, log: seq<Effect>)

  /**
    Whether a pointer event reaches the move handler and is acted on: never
    over the UI; in 3D only when the ground-plane raycast hits. The 2D
    processor ignores the raycast's result.
  */
  predicate Handled(mode: Mode, plane: Vec2 -> Hit, e: PointerEvent)
  {
    !e.overUi && (mode == Plan2D || plane(e.position).found)
  }

  /** Where a handled event puts the object: the plane point, flattened onto the floor in 2D. */
  function TargetPosition(mode: Mode, plane: Vec2 -> Hit, flipYZ: Vec3 -> Vec3, e: PointerEvent): (p: Vec3)
    ensures mode == Plan2D ==> p.y == 0.0
    ensures mode == Scene3D ==> p == plane(e.position).point
  {
    if mode == Plan2D then OnFloor(flipYZ(plane(e.position).point)) else plane(e.position).point
  }

  /** `ObjectDragBegan`: display the preview at the gesture's position, then subscribe. */
  function BeginStep(s: State, model: ObjectModel, at: Vec2): (r: State)
    ensures r.command == s.command
    ensures r.log == s.log + [DisplayPreview(model, at), Subscribe]
  {
    State(s.command, s.log + [DisplayPreview(model, at), Subscribe])
  }

  /** `ProcessObjectDrag` followed, for a handled event, by `HandleObjectDrag`. */
  function DragStep(mode: Mode, plane: Vec2 -> Hit, flipYZ: Vec3 -> Vec3, floor: int,
                    model: ObjectModel, s: State, e: PointerEvent): (r: State)
    ensures |r.log| > |s.log| && r.log[..|s.log| + 1] == s.log + [MovePreview(e.position)]
    ensures !Handled(mode, plane, e) ==> r == State(s.command, s.log + [MovePreview(e.position)])
    ensures Handled(mode, plane, e) ==> r.command.Some? && r.command.value.position == TargetPosition(mode, plane, flipYZ, e)
    ensures Handled(mode, plane, e) && s.command.None? ==>
              r.command == Some(AddObjectCommand(model, r.command.value.position, floor)) &&
              r.log == s.log + [MovePreview(e.position), Execute(Add(r.command.value)), HidePreview]
    ensures Handled(mode, plane, e) && s.command.Some? ==>
              r.command.value == s.command.value.(position := r.command.value.position) &&
              r.log == s.log + [MovePreview(e.position)]
  {
    var log := s.log + [MovePreview(e.position)];
    if !Handled(mode, plane, e) then State(s.command, log)
    else
      var p := TargetPosition(mode, plane, flipYZ, e);
      match s.command
      case None =>
        var c := AddObjectCommand(model, p, floor);
        State(Some(c), log + [Execute(Add(c)), HidePreview])
      case Some(c) => State(Some(c.(position := p)), log)
  }

  /**
    The effects of the mode's completion handler: the selection tool in 2D,
    then `RecordFinalState` when a command exists. None of them executes.
  */
  function CompletionEffects(mode: Mode, command: Option<AddObjectCommand>): (e: seq<Effect>)
    ensures AddTool(SelectionTool) in e <==> mode == Plan2D
    ensures command.Some? ==> |e| > 0 && e[|e| - 1] == RecordFinalState(command.value)
    ensures command.None? ==> forall i :: 0 <= i < |e| ==> !e[i].RecordFinalState?
    ensures CountExecutes(e) == 0
  {
    (if mode == Plan2D then [AddTool(SelectionTool)] else []) +
    (if command.Some? then [RecordFinalState(command.value)] else [])
  }

  /** `ObjectDragCompleted`: hide the preview, then the mode's completion handler, which drops the command. */
  function CompleteStep(mode: Mode, s: State): (r: State)
    ensures r.command.None?
    ensures r.log == s.log + [HidePreview] + CompletionEffects(mode, s.command)
    ensures CountExecutes(r.log) == CountExecutes(s.log)
  {
    CountExecutesAppend(s.log + [HidePreview], CompletionEffects(mode, s.command));
    CountExecutesAppend(s.log, [HidePreview]);
    State(None, s.log + [HidePreview] + CompletionEffects(mode, s.command))
  }

  /** The moves of one drag, in order. */
  function Moves(mode: Mode, plane: Vec2 -> Hit, flipYZ: Vec3 -> Vec3, floor: int,
                 model: ObjectModel, s: State, events: seq<PointerEvent>): State
    decreases |events|
  {
    if events == [] then s
    else Moves(mode, plane, flipYZ, floor, model, DragStep(mode, plane, flipYZ, floor, model, s, events[0]), events[1..])
  }

  /** A whole drag gesture: begin at `at`, the moves `events`, then completion. */
  function Gesture(mode: Mode, plane: Vec2 -> Hit, flipYZ: Vec3 -> Vec3, floor: int,
                   model: ObjectModel, s: State, at: Vec2, events: seq<PointerEvent>): State
  {
    CompleteStep(mode, Moves(mode, plane, flipYZ, floor, model, BeginStep(s, model, at), events))
  }

  /** Some event of the drag is handled. */
  predicate AnyHandled(mode: Mode, plane: Vec2 -> Hit, events: seq<PointerEvent>)
  {
    exists i :: 0 <= i < |events| && Handled(mode, plane, events[i])
  }

  /** One move adds an `Execute` exactly when it is handled and no command exists yet. */
  lemma DragStepExecutes(mode: Mode, plane: Vec2 -> Hit, flipYZ: Vec3 -> Vec3, floor: int,
                         model: ObjectModel, s: State, e: PointerEvent)
    ensures CountExecutes(DragStep(mode, plane, flipYZ, floor, model, s, e).log) ==
              CountExecutes(s.log) + (if s.command.None? && Handled(mode, plane, e) then 1 else 0)
  {
    var r := DragStep(mode, plane, flipYZ, floor, model, s, e);
    if Handled(mode, plane, e) && s.command.None? {
      CountExecutesAppend(s.log, [MovePreview(e.position), Execute(Add(r.command.value)), HidePreview]);
    } else {
      CountExecutesAppend(s.log, [MovePreview(e.position)]);
    }
  }

  lemma AnyHandledFirst(mode: Mode, plane: Vec2 -> Hit, events: seq<PointerEvent>)
    requires events != []
    ensures AnyHandled(mode, plane, events) <==> Handled(mode, plane, events[0]) || AnyHandled(mode, plane, events[1..])
  {
    if AnyHandled(mode, plane, events) && !Handled(mode, plane, events[0]) {
      var i :| 0 <= i < |events| && Handled(mode, plane, events[i]);
      assert events[1..][i - 1] == events[i];
    }
    if AnyHandled(mode, plane, events[1..]) {
      var i :| 0 <= i < |events[1..]| && Handled(mode, plane, events[1..][i]);
      assert events[i + 1] == events[1..][i];
    }
  }

  /**
    Over a sequence of moves the command exists afterwards iff it existed
    before or some move was handled, and exactly one `Execute` is added when
    it did not exist and some move was handled; none otherwise.
  */
  lemma {:induction false} MovesExecuteOnce(mode: Mode, plane: Vec2 -> Hit, flipYZ: Vec3 -> Vec3, floor: int,
                                            model: ObjectModel, s: State, events: seq<PointerEvent>)
    ensures Moves(mode, plane, flipYZ, floor, model, s, events).command.Some? <==>
              s.command.Some? || AnyHandled(mode, plane, events)
    ensures CountExecutes(Moves(mode, plane, flipYZ, floor, model, s, events).log) ==
              CountExecutes(s.log) + (if s.command.None? && AnyHandled(mode, plane, events) then 1 else 0)
    decreases |events|
  {
    if events != [] {
      var s' := DragStep(mode, plane, flipYZ, floor, model, s, events[0]);
      DragStepExecutes(mode, plane, flipYZ, floor, model, s, events[0]);
      AnyHandledFirst(mode, plane, events);
      MovesExecuteOnce(mode, plane, flipYZ, floor, model, s', events[1..]);
    }
  }

  /**
    A drag that starts without a command puts exactly one command on the undo
    stack when some move is handled and none otherwise, and leaves no command
    behind, so the next drag starts afresh.
  */
  lemma GestureExecutesAtMostOnce(mode: Mode, plane: Vec2 -> Hit, flipYZ: Vec3 -> Vec3, floor: int,
                                  model: ObjectModel, s: State, at: Vec2, events: seq<PointerEvent>)
    requires s.command.None?
    ensures Gesture(mode, plane, flipYZ, floor, model, s, at, events).command.None?
    ensures CountExecutes(Gesture(mode, plane, flipYZ, floor, model, s, at, events).log) ==
              CountExecutes(s.log) + (if AnyHandled(mode, plane, events) then 1 else 0)
  {
    var b := BeginStep(s, model, at);
    CountExecutesAppend(s.log, [DisplayPreview(model, at), Subscribe]);
    MovesExecuteOnce(mode, plane, flipYZ, floor, model, b, events);
  }

  /** In 2D every command the moves create or reposition lies on the floor (`y == 0`). */
  lemma {:induction false} Plan2DStaysOnFloor(plane: Vec2 -> Hit, flipYZ: Vec3 -> Vec3, floor: int,
                                              model: ObjectModel, s: State, events: seq<PointerEvent>)
    requires s.command.Some? ==> s.command.value.position.y == 0.0
    ensures var r := Moves(Plan2D, plane, flipYZ, floor, model, s, events);
            r.command.Some? ==> r.command.value.position.y == 0.0
    decreases |events|
  {
    if events != [] {
      Plan2DStaysOnFloor(plane, flipYZ, floor, model, DragStep(Plan2D, plane, flipYZ, floor, model, s, events[0]), events[1..]);
    }
  }

  /**
    A standard drag processor. `plane` is the raycast against the plane the
    mode drags on (the walls' plane in 2D, the ground plane in 3D) and
    `flipYZ` is `Vector3.FlipYZ`.
  */
  class StandardDragProcessor {
    const mode: Mode
    const plane: Vec2 -> Hit
    const flipYZ: Vec3 -> Vec3
    var addObjectCommand: Option<AddObjectCommand>
    /** `_objectModel`, which only the 3D processor keeps. */
    var objectModel: ObjectModel?
    ghost var log: seq<Effect>

    ghost function Current(): State
      reads this
    {
      State(addObjectCommand, log)
    }

    constructor (mode: Mode, plane: Vec2 -> Hit, flipYZ: Vec3 -> Vec3)
      ensures this.mode == mode && this.plane == plane && this.flipYZ == flipYZ
      ensures addObjectCommand == None && objectModel == null && log == []
    {
      this.mode := mode;
      this.plane := plane;
      this.flipYZ := flipYZ;
      addObjectCommand := None;
      objectModel := null;
      log := [];
    }

    /** `ObjectDragBegan`: preview, subscription, then `HandleObjectDragBegan` (3D stores the model). */
    method ObjectDragBegan(model: ObjectModel, at: Vec2)
      modifies this
      ensures Current() == BeginStep(old(Current()), model, at)
      ensures objectModel == (if mode == Scene3D then model else old(objectModel))
    {
      log := log + [DisplayPreview(model, at), Subscribe];
      if mode == Scene3D {
        objectModel := model;
      }
    }

    /**
      `ProcessObjectDrag` for one event of the subscribed drag of `model`;
      `floor` is the apartment's current floor index. A handled 3D move that
      repositions an existing command also puts the model on the dragged layer.
    */
    method ProcessObjectDrag(e: PointerEvent, model: ObjectModel, floor: int)
      modifies this, model
      ensures Current() == DragStep(mode, plane, flipYZ, floor, model, old(Current()), e)
      ensures objectModel == old(objectModel)
      ensures model.stateId == old(model.stateId)
      ensures model.layer ==
                if mode == Scene3D && Handled(mode, plane, e) && old(addObjectCommand).Some?
                then DraggedObject3D else old(model.layer)
    {
      log := log + [MovePreview(e.position)];
      if e.overUi {
        return;
      }
      var hit := plane(e.position);
      var position: Vec3;
      if mode == Plan2D {
        position := OnFloor(flipYZ(hit.point));
      } else {
        if !hit.found {
          return;
        }
        position := hit.point;
      }
      if addObjectCommand.None? {
        var c := AddObjectCommand(model, position, floor);
        addObjectCommand := Some(c);
        log := log + [Execute(Add(c)), HidePreview];
      } else {
        addObjectCommand := Some(addObjectCommand.value.(position := position));
        if mode == Scene3D {
          model.layer := DraggedObject3D;
        }
      }
    }

    /** `ObjectDragCompleted`: in 3D the stored model goes back to the object layer. */
    method ObjectDragCompleted()
      requires mode == Scene3D ==> objectModel != null
      modifies this, objectModel
      ensures Current() == CompleteStep(mode, old(Current()))
      ensures objectModel == old(objectModel)
      ensures mode == Scene3D ==> objectModel.layer == ObjectView && objectModel.stateId == old(objectModel.stateId)
      ensures mode == Plan2D ==> objectModel == null || unchanged(objectModel)
    {
      log := log + [HidePreview];
      if mode == Plan2D {
        log := log + [AddTool(SelectionTool)];
      } else {
        objectModel.layer := ObjectView;
      }
      if addObjectCommand.Some? {
        log := log + [RecordFinalState(addObjectCommand.value)];
      }
      addObjectCommand := None;
    }
  }
}
