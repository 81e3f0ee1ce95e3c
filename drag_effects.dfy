/**
  What dragging an object from the catalogue does to the rest of the editor.
  The undo stack, the preview widget, the tools manager and the notification
  controller are outside the catalogue; their calls are recorded as a log of
  `Effect`s in the order they are made.
*/
module DragEffects {
  import opened Geometry
  import opened ObjectModels

  /** The tools the processors hand to `ToolsManager.Add`. */
  datatype Tool = SelectionTool | HighlightNearestWallTool

  /** A wall of the current floor, as `GetNearestWall` returns it. */
  datatype Wall = Wall(id: int)

  /** `new AddObjectCommand(objectModel, position, …, floorIndex)`, with the instance position as it now stands. */
  datatype AddObjectCommand = AddObjectCommand(model: ObjectModel, position: Vec3, floorIndex: int)

  /** The commands handed to `UndoRedoStack.Execute`. */
  datatype Command =
    | Add(add: AddObjectCommand)
    | BindToWall(target: AddObjectCommand, position: Vec3, wall: Wall)
    | Composite(subCommands: seq<Command>)

  datatype Effect =
    | DisplayPreview(model: ObjectModel, at: Vec2)
    | MovePreview(to: Vec2)
    | HidePreview
    | Subscribe
    | AddTool(tool: Tool)
    | Execute(command: Command)
    | RecordFinalState(recorded: AddObjectCommand)
    | Notify(message: string)

  /** One pointer event of a drag: its screen position and whether it is over a UI element. */
  datatype PointerEvent = PointerEvent(position: Vec2, overUi: bool)

  /** How many commands a log puts on the undo stack. */
  function CountExecutes(log: seq<Effect>): (n: nat)
    ensures n <= |log|
    ensures n == 0 <==> forall i :: 0 <= i < |log| ==> !log[i].Execute?
  {
    if log == [] then 0
    else CountExecutes(log[..|log| - 1]) + (if log[|log| - 1].Execute? then 1 else 0)
  }

  lemma {:induction false} CountExecutesAppend(a: seq<Effect>, b: seq<Effect>)
    ensures CountExecutes(a + b) == CountExecutes(a) + CountExecutes(b)
    decreases |b|
  {
    if b != [] {
      assert (a + b)[..|a + b| - 1] == a + b[..|b| - 1];
      CountExecutesAppend(a, b[..|b| - 1]);
    } else {
      assert a + b == a;
    }
  }
}
